/** Failure-carrying results for the operations of the brake test model.
    Python raises an exception where these return `Failure`. */
module Results {

  /** The Python exceptions the modelled code can raise. */
  datatype PyError =
    | ZeroDivisionError  // float division by zero
    | ValueError         // numpy refuses an array of negative size
    | AttributeError     // an instance attribute read before it was written

  datatype Option<+T> = None | Some(value: T)

  datatype Result<+T> = Success(value: T) | Failure(error: PyError)
}

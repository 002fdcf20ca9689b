/** Python 3's built-in `round` applied to an exact quotient. */
module PyRound {

  /** The integer nearest to `num / den`, with exact halves going to the
      even neighbour ("banker's rounding"), as Python 3's `round` does.
      Dafny's `/` and `%` floor when `den > 0`, so negative numerators are
      handled too. */
  function RoundHalfEven(num: int, den: int): (r: int)
    requires den > 0
    // r is within one half of num / den ...
    ensures den * (2 * r - 1) <= 2 * num <= den * (2 * r + 1)
    // ... and an exact half is resolved towards the even neighbour
    ensures (2 * num == den * (2 * r - 1) || 2 * num == den * (2 * r + 1)) ==> r % 2 == 0
  {
    var q := num / den;
    var rem := num % den;
    if 2 * rem < den then q
    else if 2 * rem > den then q + 1
    else if q % 2 == 0 then q
    else q + 1
  }

  /** Half-to-even rounding is the only integer with the two properties of
      `RoundHalfEven`'s contract: the contract fully specifies Python's
      `round`. */
  lemma RoundHalfEvenUnique(num: int, den: int, m: int)
    requires den > 0
    requires den * (2 * m - 1) <= 2 * num <= den * (2 * m + 1)
    requires (2 * num == den * (2 * m - 1) || 2 * num == den * (2 * m + 1)) ==> m % 2 == 0
    ensures m == RoundHalfEven(num, den)
  {
    var r := RoundHalfEven(num, den);
    if m < r {
      if r == m + 1 {
        // both are a tie, but m and m + 1 cannot both be even
        assert false;
      } else {
        MulStrict(den, 2 * m + 1, 2 * r - 1);
        assert false;
      }
    } else if m > r {
      if m == r + 1 {
        assert false;
      } else {
        MulStrict(den, 2 * r + 1, 2 * m - 1);
        assert false;
      }
    }
  }

  lemma MulStrict(d: int, a: int, b: int)
    requires d > 0 && a < b
    ensures d * a < d * b
  {
  }
}

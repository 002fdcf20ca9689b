/** The deterministic part of the synthetic brake test generator: how a run
    of `n` samples is partitioned, how the random slopes are bounded, the
    ideal pressure and force ramps, and the rule that freezes both series
    once either reaches its maximum. Measurement noise is not modelled, so
    the series here are the noise-free ones. */
module BrakeData {
  import opened Results
  import opened PyRound
  import opened Series

  /** Maximum brake pressure (bar) and brake force (kN) of a test run. */
  const MaxPress: real := 3.7
  const MaxForce: real := 45.0

  /** One draw of `np.random.rand()`: uniform on [0, 1). */
  type Draw = u: real | 0.0 <= u < 1.0

  /** Length of the rolling-resistance window: `round(n / 6)`. */
  function NRoll(n: int): int {
    RoundHalfEven(n, 6)
  }

  /** Samples between the start of braking and the rise of the force:
      `round(n_roll / 2)`. */
  function ForceDelay(n: int): int {
    RoundHalfEven(NRoll(n), 2)
  }

  /** For a non-negative sample count the force delay is zero exactly for
      the runs of at most eight samples (n = 9 gives round(1.5) = 2 and
      then round(1.0) = 1; n = 8 gives round(1.33) = 1 and round(0.5) = 0). */
  lemma ForceDelayZeroIffShort(n: int)
    requires 0 <= n
    ensures ForceDelay(n) == 0 <==> n <= 8
  {
  }

  /** For every run the constructor accepts, the three phases fit inside the
      run with room for two samples after the force delay, and the gap the
      minimum slope is spread over is wide enough for the slope bounds to be
      ordered (37 * force_delay < 10 * (n - n_roll - 1)) but narrow enough
      for the minimum slope to wake the force at 0.2 bar or more
      (2 * (n - n_roll - 1) <= 37 * force_delay). */
  lemma PartitionFitsRun(n: int)
    requires 9 <= n
    ensures 2 <= NRoll(n) && 1 <= ForceDelay(n)
    ensures NRoll(n) + ForceDelay(n) + 2 <= n
    ensures 2 * Gap(n) < 37 * ForceDelay(n) < 10 * Gap(n)
  {
  }

  /** The height of a line of slope `k`, `d` samples after it starts. */
  function Rise(k: real, d: int): real {
    k * (d as real)
  }

  /** The generator's state after the constructor. */
  datatype BrakeTest = BrakeTest(
    n: int,           // number of samples
    nRoll: int,       // rolling-resistance window
    forceDelay: int,  // samples from start of braking to rise of force
    pressK: real,     // pressure slope per sample
    forceK: real,     // force slope per sample
    rollRes: real     // rolling resistance
  )

  /** What every constructed generator satisfies. */
  ghost predicate Initialised(bt: BrakeTest) {
    && bt.nRoll == NRoll(bt.n)
    && bt.forceDelay == ForceDelay(bt.n)
    && Gap(bt.n) != 0
    && bt.forceDelay != 0
  }

  /** Samples from the end of the rolling-resistance window to the last
      sample: `n - n_roll - 1`. */
  function Gap(n: int): int {
    n - NRoll(n) - 1
  }

  /** Smallest pressure slope: the one reaching 3.7 bar at the last sample. */
  function MinK(n: int): (k: real)
    requires Gap(n) != 0
    ensures k * (Gap(n) as real) == 3.7
  {
    3.7 / Gap(n) as real
  }

  /** Largest pressure slope: the one giving a wake-up pressure of 1 bar. */
  function MaxK(n: int): (k: real)
    requires ForceDelay(n) != 0
    ensures k * (ForceDelay(n) as real) == 1.0
  {
    1.0 / ForceDelay(n) as real
  }

  /** The constructor `BrakeTest(n)`, with its three calls of
      `np.random.rand()` passed in as `u1`, `u2`, `u3`. It fails with a
      division by zero when `n - n_roll - 1` or `force_delay` is zero. */
  function Init(n: int, u1: Draw, u2: Draw, u3: Draw): (r: Result<BrakeTest>)
    ensures r.Failure? <==> Gap(n) == 0 || ForceDelay(n) == 0
    ensures r.Failure? ==> r.error == ZeroDivisionError
    ensures r.Success? ==> r.value.n == n && Initialised(r.value)
    ensures r.Success? ==> Drawn(r.value, u1, u2, u3)
  {
    var nRoll := NRoll(n);
    var forceDelay := ForceDelay(n);
    if Gap(n) == 0 then Failure(ZeroDivisionError)
    else if forceDelay == 0 then Failure(ZeroDivisionError)
    else
      var minK := MinK(n);
      var maxK := MaxK(n);
      var pressK := minK + u1 * (maxK - minK);
      var forceK := pressK * (3.0 + u2 * 13.0);
      var rollRes := 2.0 + u3 * 8.0;
      Success(BrakeTest(n, nRoll, forceDelay, pressK, forceK, rollRes))
  }

  /** A non-negative sample count is accepted exactly when it is at least 9. */
  lemma InitSucceedsIffLongEnough(n: int, u1: Draw, u2: Draw, u3: Draw)
    requires 0 <= n
    ensures Init(n, u1, u2, u3).Success? <==> 9 <= n
  {
    ForceDelayZeroIffShort(n);
    if 9 <= n {
      PartitionFitsRun(n);
    }
  }

  /** A constructed generator with a non-negative sample count has at least
      nine samples, so all its phases fit in the run. */
  lemma InitialisedRunIsLong(bt: BrakeTest)
    requires Initialised(bt) && 0 <= bt.n
    ensures 9 <= bt.n
    ensures 2 <= bt.nRoll && 1 <= bt.forceDelay
    ensures bt.nRoll + bt.forceDelay + 2 <= bt.n
  {
    ForceDelayZeroIffShort(bt.n);
    PartitionFitsRun(bt.n);
  }

  /** A draw in [0, 1) scaling a positive gap stays inside the gap; the
      product is returned so that the caller names the same term. */
  lemma ScaleGap(u: real, d: real) returns (p: real)
    requires 0.0 <= u < 1.0 && 0.0 < d
    ensures p == u * d
    ensures 0.0 <= p < d
  {
    p := u * d;
  }

  /** A draw in [0, 1) picks a point of `[lo, hi)`. */
  lemma FractionOfGap(lo: real, hi: real, u: real) returns (x: real)
    requires lo < hi && 0.0 <= u < 1.0
    ensures x == lo + u * (hi - lo)
    ensures lo <= x < hi
  {
    var _ := ScaleGap(u, hi - lo);
    x := lo + u * (hi - lo);
  }

  /** `a < b` scaled by a positive factor. */
  lemma ScaleStrict(a: real, b: real, c: real)
    requires a < b && 0.0 < c
    ensures a * c < b * c
  {
  }

  /** `a <= b` scaled by a non-negative factor. */
  lemma ScaleLe(a: real, b: real, c: real)
    requires a <= b && 0.0 <= c
    ensures a * c <= b * c
  {
  }

  lemma MulCancel(a: real, b: real, c: real)
    requires 0.0 < c && a * c < b * c
    ensures a < b
  {
    if b <= a {
      ScaleLe(b, a, c);
    }
  }

  /** The bounds the random draws are chosen to respect: the pressure slope
      lies in [min_k, max_k), so the ideal wake-up pressure lies between
      0.2 and 1 bar and the ideal pressure at the last sample is at least
      3.7 bar; the force slope is 3 to 16 times the pressure slope and the
      rolling resistance lies in [2, 10). */
  lemma InitSlopeBounds(n: int, u1: Draw, u2: Draw, u3: Draw, bt: BrakeTest)
    requires 0 <= n && Init(n, u1, u2, u3) == Success(bt)
    ensures 0.0 < MinK(n) < MaxK(n) <= 1.0
    ensures MinK(n) <= bt.pressK < MaxK(n)
    ensures 0.2 <= Rise(bt.pressK, bt.forceDelay) < 1.0
    ensures MaxPress <= Rise(bt.pressK, Gap(n))
    ensures 3.0 * bt.pressK <= bt.forceK < 16.0 * bt.pressK
    ensures 2.0 <= bt.rollRes < 10.0
  {
    InitSucceedsIffLongEnough(n, u1, u2, u3);
    PressKInRange(bt, u1);
    WakeUpBelowOne(bt);
    WakeUpAtLeastFifth(bt);
    LastPressureReachesMax(bt);
    ForceSlopeRange(bt.pressK, u2, bt.forceK);
  }

  /** The field values the constructor computes from its three draws. */
  ghost predicate Drawn(bt: BrakeTest, u1: Draw, u2: Draw, u3: Draw)
    requires Initialised(bt)
  {
    && bt.pressK == MinK(bt.n) + u1 * (MaxK(bt.n) - MinK(bt.n))
    && bt.forceK == bt.pressK * (3.0 + u2 * 13.0)
    && bt.rollRes == 2.0 + u3 * 8.0
  }

  lemma PressKInRange(bt: BrakeTest, u1: Draw)
    requires Initialised(bt) && 9 <= bt.n
    requires bt.pressK == MinK(bt.n) + u1 * (MaxK(bt.n) - MinK(bt.n))
    ensures 0.0 < MinK(bt.n) < MaxK(bt.n) <= 1.0
    ensures MinK(bt.n) <= bt.pressK < MaxK(bt.n)
  {
    SlopeOrder(bt.n);
    var x := FractionOfGap(MinK(bt.n), MaxK(bt.n), u1);
    assert x == bt.pressK;
  }

  /** A slope below `max_k` keeps the wake-up pressure below 1 bar. */
  lemma WakeUpBelowOne(bt: BrakeTest)
    requires Initialised(bt) && 9 <= bt.n
    requires 0.0 < bt.pressK < MaxK(bt.n)
    ensures Rise(bt.pressK, bt.forceDelay) < 1.0
  {
    InitialisedRunIsLong(bt);
    BelowReciprocal(bt.pressK, MaxK(bt.n), bt.forceDelay);
  }

  lemma BelowReciprocal(p: real, k: real, d: int)
    requires p < k && 0 < d && k * (d as real) == 1.0
    ensures Rise(p, d) < 1.0
  {
    var f := d as real;
    var pf, kf := p * f, k * f;
    ScaleStrict(p, k, f);
    assert pf < kf;
  }

  /** A slope of at least `min_k` wakes the force at 0.2 bar or more:
      min_k * force_delay = 3.7 * force_delay / (n - n_roll - 1) >= 0.2. */
  lemma WakeUpAtLeastFifth(bt: BrakeTest)
    requires Initialised(bt) && 9 <= bt.n
    requires MinK(bt.n) <= bt.pressK
    ensures 0.2 <= Rise(bt.pressK, bt.forceDelay)
  {
    PartitionFitsRun(bt.n);
    AtLeastFifth(MinK(bt.n), bt.pressK, Gap(bt.n), bt.forceDelay);
  }

  lemma AtLeastFifth(minK: real, p: real, g: int, d: int)
    requires 0 < g && 0 <= d && 2 * g < 37 * d
    requires minK * (g as real) == 3.7 && minK <= p
    ensures 0.2 <= Rise(p, d)
  {
    var m, f := g as real, d as real;
    assert 0.2 * m <= 3.7 * f;
    // (minK * f) * m == 3.7 * f >= 0.2 * m, so minK * f >= 0.2
    assert minK * m == 3.7;
    assert (minK * f) * m == (minK * m) * f == 3.7 * f;
    if minK * f < 0.2 {
      ScaleStrict(minK * f, 0.2, m);
      assert false;
    }
    var kf, pf := minK * f, p * f;
    ScaleLe(minK, p, f);
    assert kf <= pf;
  }

  /** A slope of at least `min_k` reaches 3.7 bar at the last sample. */
  lemma LastPressureReachesMax(bt: BrakeTest)
    requires Initialised(bt) && 9 <= bt.n
    requires MinK(bt.n) <= bt.pressK
    ensures MaxPress <= Rise(bt.pressK, Gap(bt.n))
  {
    InitialisedRunIsLong(bt);
    ScaledPast(MinK(bt.n), bt.pressK, Gap(bt.n));
  }

  lemma ScaledPast(minK: real, p: real, d: int)
    requires 0 <= d && minK * (d as real) == 3.7 && minK <= p
    ensures 3.7 <= Rise(p, d)
  {
    var m := d as real;
    var km, pm := minK * m, p * m;
    ScaleLe(minK, p, m);
    assert km <= pm;
  }

  /** The slope bounds are ordered for every accepted run. */
  lemma SlopeOrder(n: int)
    requires 9 <= n
    ensures Gap(n) != 0 && ForceDelay(n) != 0
    ensures 0.0 < MinK(n) < MaxK(n) <= 1.0
  {
    PartitionFitsRun(n);
    var g, d := Gap(n), ForceDelay(n);
    assert g != 0 && d != 0;
    var minK, maxK := MinK(n), MaxK(n);
    var m, f := g as real, d as real;
    assert minK * m == 3.7;
    assert maxK * f == 1.0;
    WideGap(g, d);
    OrderedByProducts(m, f, minK, maxK);
  }

  /** `37 * d < 10 * g` read over the reals. */
  lemma WideGap(g: int, d: int)
    requires 1 <= d && 37 * d < 10 * g
    ensures 1.0 <= d as real && 3.7 * (d as real) < g as real
  {
  }

  lemma OrderedByProducts(m: real, f: real, minK: real, maxK: real)
    requires 1.0 <= f && 3.7 * f < m
    requires minK * m == 3.7 && maxK * f == 1.0
    ensures 0.0 < minK < maxK <= 1.0
  {
    // (minK * f) * m == 3.7 * f < m, so minK * f < 1.0 == maxK * f
    assert (minK * f) * m == 3.7 * f;
    assert 1.0 * m == m;
    MulCancel(minK * f, 1.0, m);
    MulCancel(minK, maxK, f);
    ScaleLe(1.0, f, maxK);
  }

  /** The force slope is 3 to 16 times the pressure slope. */
  lemma ForceSlopeRange(pressK: real, u2: Draw, forceK: real)
    requires 0.0 < pressK && forceK == pressK * (3.0 + u2 * 13.0)
    ensures 3.0 * pressK <= forceK < 16.0 * pressK
  {
    ScaleLe(3.0, 3.0 + u2 * 13.0, pressK);
    ScaleStrict(3.0 + u2 * 13.0, 16.0, pressK);
  }
}

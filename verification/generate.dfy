/** `BrakeTest.generate_data` without its noise: the ideal pressure and
    force ramps and the cutoff that freezes both series once either of them
    reaches its maximum. */
module Generation {
  import opened Results
  import opened Series
  import opened BrakeData

  /** Ideal brake pressure: zero during the rolling-resistance window, then
      rising by `pressK` per sample. Built, like the source, as zeros with
      the tail from `n_roll` on overwritten by `pressK * (t - t[n_roll])`. */
  function PressureRamp(n: nat, nRoll: nat, pressK: real): (p: seq<real>)
    requires nRoll < n
    ensures |p| == n
    ensures forall i :: 0 <= i < nRoll ==> p[i] == 0.0
    ensures forall i :: nRoll <= i < n ==> p[i] == Rise(pressK, i - nRoll)
  {
    var t := Arange(n);
    AssignTail(Full(n, 0.0), nRoll,
      seq(n - nRoll, j requires 0 <= j < n - nRoll => Rise(pressK, t[nRoll + j] - t[nRoll])))
  }

  /** Ideal brake force: the rolling resistance until `start`, then rising
      by `forceK` per sample on top of it. */
  function ForceRamp(n: nat, start: nat, rollRes: real, forceK: real): (f: seq<real>)
    requires start < n
    ensures |f| == n
    ensures forall i :: 0 <= i < start ==> f[i] == rollRes
    ensures forall i :: start <= i < n ==> f[i] == rollRes + Rise(forceK, i - start)
  {
    var t := Arange(n);
    AssignTail(Full(n, rollRes), start,
      seq(n - start, j requires 0 <= j < n - start => rollRes + Rise(forceK, t[start + j] - t[start])))
  }

  lemma RiseMonotone(k: real, d1: int, d2: int)
    requires 0.0 <= k && d1 <= d2
    ensures Rise(k, d1) <= Rise(k, d2)
  {
    var a, b := d1 as real, d2 as real;
    ScaleLe(a, b, k);
    assert Rise(k, d1) == a * k && Rise(k, d2) == b * k;
  }

  lemma RiseNonNegative(k: real, d: int)
    requires 0.0 <= k && 0 <= d
    ensures 0.0 <= Rise(k, d)
  {
    RiseMonotone(k, 0, d);
  }

  /** With a non-negative slope the ideal pressure never decreases. */
  lemma PressureRampNonDecreasing(n: nat, nRoll: nat, pressK: real)
    requires nRoll < n && 0.0 <= pressK
    ensures NonDecreasing(PressureRamp(n, nRoll, pressK))
  {
    var p := PressureRamp(n, nRoll, pressK);
    forall i, j | 0 <= i <= j < n
      ensures p[i] <= p[j]
    {
      if nRoll <= i {
        RiseMonotone(pressK, i - nRoll, j - nRoll);
      } else if nRoll <= j {
        RiseNonNegative(pressK, j - nRoll);
      }
    }
  }

  /** With a non-negative slope the ideal force never decreases. */
  lemma ForceRampNonDecreasing(n: nat, start: nat, rollRes: real, forceK: real)
    requires start < n && 0.0 <= forceK
    ensures NonDecreasing(ForceRamp(n, start, rollRes, forceK))
  {
    var f := ForceRamp(n, start, rollRes, forceK);
    forall i, j | 0 <= i <= j < n
      ensures f[i] <= f[j]
    {
      if start <= i {
        RiseMonotone(forceK, i - start, j - start);
      } else if start <= j {
        RiseNonNegative(forceK, j - start);
      }
    }
  }

  function Min(a: nat, b: nat): nat {
    if a <= b then a else b
  }

  /** Both series after the cutoff rule, with the cutoff index. */
  datatype Clipped = Clipped(tCutoff: nat, press: seq<real>, force: seq<real>)

  /** The cutoff rule: count the pressure samples below `MAX_PRESS` and the
      force samples below `MAX_FORCE`; the smaller count (pressure on a tie)
      is the cutoff unless it is the whole run, and from the cutoff on both
      series are frozen at their value there. */
  function ApplyCutoff(press: seq<real>, force: seq<real>): (c: Clipped)
    requires |press| == |force|
    // the cutoff is the smaller of the two counts; which branch wins a tie
    // does not matter, since both clip at the same index
    ensures c.tCutoff == Min(CountBelow(press, MaxPress), CountBelow(force, MaxForce))
    ensures c.tCutoff <= |press|
    ensures |c.press| == |press| && |c.force| == |force|
    // the samples before the cutoff are untouched ...
    ensures forall i :: 0 <= i < c.tCutoff ==> c.press[i] == press[i] && c.force[i] == force[i]
    // ... and the rest are frozen at the value at the cutoff
    ensures forall i :: c.tCutoff <= i < |press| ==>
              c.press[i] == press[c.tCutoff] && c.force[i] == force[c.tCutoff]
    ensures c.tCutoff == |press| ==> c.press == press && c.force == force
  {
    var n := |press|;
    var pressLim := CountBelow(press, MaxPress);
    var forceLim := CountBelow(force, MaxForce);
    if pressLim <= forceLim then
      if pressLim != n then
        Clipped(pressLim, FreezeFrom(press, pressLim), FreezeFrom(force, pressLim))
      else
        Clipped(n, press, force)
    else
      // forceLim < pressLim <= n, so this guard always holds
      if forceLim != n then
        Clipped(forceLim, FreezeFrom(press, forceLim), FreezeFrom(force, forceLim))
      else
        Clipped(forceLim, press, force)  // forceLim == n here
  }

  /** There is no cutoff exactly when neither series ever reaches its
      maximum. */
  lemma NoCutoffIffAllBelow(press: seq<real>, force: seq<real>)
    requires |press| == |force|
    ensures ApplyCutoff(press, force).tCutoff == |press| <==>
              forall i :: 0 <= i < |press| ==> press[i] < MaxPress && force[i] < MaxForce
  {
    CountBelowAllOrNone(press, MaxPress);
    CountBelowAllOrNone(force, MaxForce);
  }

  /** On non-decreasing series the cutoff is the first sample at which
      either series reaches its maximum: everything before it is below both
      maxima. */
  lemma CutoffIsFirstBreach(press: seq<real>, force: seq<real>)
    requires |press| == |force|
    requires NonDecreasing(press) && NonDecreasing(force)
    ensures var t := ApplyCutoff(press, force).tCutoff;
      && (forall i :: 0 <= i < t ==> press[i] < MaxPress && force[i] < MaxForce)
      && (t < |press| ==> MaxPress <= press[t] || MaxForce <= force[t])
  {
    CountBelowSplitsSorted(press, MaxPress);
    CountBelowSplitsSorted(force, MaxForce);
  }

  /** Freezing the tail keeps non-decreasing series non-decreasing. */
  lemma CutoffKeepsOrder(press: seq<real>, force: seq<real>)
    requires |press| == |force|
    requires NonDecreasing(press) && NonDecreasing(force)
    ensures NonDecreasing(ApplyCutoff(press, force).press)
    ensures NonDecreasing(ApplyCutoff(press, force).force)
  {
  }

  /** The noise-free arrays `generate_data` leaves behind. */
  datatype Generated = Generated(tAxis: seq<int>, press: seq<real>, force: seq<real>, tCutoff: nat)

  /** `generate_data` without the noise. A negative sample count makes
      `np.zeros` fail. */
  function GenerateData(bt: BrakeTest): (r: Result<Generated>)
    requires Initialised(bt)
    ensures r.Failure? <==> bt.n < 0
    ensures r.Failure? ==> r.error == ValueError
    ensures r.Success? ==>
      && |r.value.tAxis| == |r.value.press| == |r.value.force| == bt.n
      && (forall i :: 0 <= i < bt.n ==> r.value.tAxis[i] == i)
      && r.value.tCutoff <= bt.n
  {
    if bt.n < 0 then Failure(ValueError)
    else
      InitialisedRunIsLong(bt);
      var c := IdealClipped(bt);
      Success(Generated(Arange(bt.n), c.press, c.force, c.tCutoff))
  }

  lemma RiseStep(k: real, d: int)
    ensures Rise(k, d + 1) == Rise(k, d) + k
    ensures Rise(k, 1) == k
  {
  }

  /** The slope bounds every constructed generator satisfies. */
  ghost predicate SlopesInRange(bt: BrakeTest)
    requires Initialised(bt)
  {
    && 0.0 < bt.pressK < 1.0
    && 0.2 <= Rise(bt.pressK, bt.forceDelay) < 1.0
    && MaxPress <= Rise(bt.pressK, Gap(bt.n))
    && 3.0 * bt.pressK <= bt.forceK < 16.0 * bt.pressK
    && 2.0 <= bt.rollRes < 10.0
  }

  lemma InitSlopesInRange(n: int, u1: Draw, u2: Draw, u3: Draw, bt: BrakeTest)
    requires 0 <= n && Init(n, u1, u2, u3) == Success(bt)
    ensures Initialised(bt) && 9 <= bt.n && SlopesInRange(bt)
  {
    InitSucceedsIffLongEnough(n, u1, u2, u3);
    InitSlopeBounds(n, u1, u2, u3, bt);
  }

  /** The ideal pressure reaches its maximum by the last sample but is below
      1 bar at the wake-up point and below the maximum one sample later. */
  lemma IdealPressureLandmarks(bt: BrakeTest)
    requires Initialised(bt) && 9 <= bt.n && SlopesInRange(bt)
    ensures var p := PressureRamp(bt.n, bt.nRoll, bt.pressK);
      && NonDecreasing(p)
      && MaxPress <= p[bt.n - 1]
      && 0.2 <= p[bt.nRoll + bt.forceDelay] < 1.0
      && p[bt.nRoll + bt.forceDelay + 1] < MaxPress
  {
    InitialisedRunIsLong(bt);
    var p := PressureRamp(bt.n, bt.nRoll, bt.pressK);
    PressureRampNonDecreasing(bt.n, bt.nRoll, bt.pressK);
    assert bt.n - 1 - bt.nRoll == Gap(bt.n);
    RiseStep(bt.pressK, bt.forceDelay);
  }

  /** The ideal force is still below its maximum one sample after it starts
      to rise: at most 10 + 16 kN. */
  lemma IdealForceLandmarks(bt: BrakeTest)
    requires Initialised(bt) && 9 <= bt.n && SlopesInRange(bt)
    ensures var f := ForceRamp(bt.n, bt.nRoll + bt.forceDelay, bt.rollRes, bt.forceK);
      && NonDecreasing(f)
      && f[bt.nRoll + bt.forceDelay + 1] < MaxForce
  {
    InitialisedRunIsLong(bt);
    var s := bt.nRoll + bt.forceDelay;
    ForceRampNonDecreasing(bt.n, s, bt.rollRes, bt.forceK);
    RiseStep(bt.forceK, 0);
  }

  /** If both series are still below their maxima at `w` and the pressure
      reaches its maximum by the end, the cutoff falls after `w` and before
      the end. */
  lemma CutoffBetween(press: seq<real>, force: seq<real>, w: nat)
    requires |press| == |force| && w < |press|
    requires NonDecreasing(press) && NonDecreasing(force)
    requires press[w] < MaxPress && force[w] < MaxForce
    requires MaxPress <= press[|press| - 1]
    ensures w < ApplyCutoff(press, force).tCutoff < |press|
  {
    CountBelowSplitsSorted(press, MaxPress);
    CountBelowSplitsSorted(force, MaxForce);
  }

  /** What the generator promises for every accepted run: the cutoff always
      happens (the pressure reaches 3.7 bar before the end) and leaves at
      least two samples after the force delay for the fit; before it both
      series are below their maxima, from it on both are flat; both series
      are non-decreasing; pressure is zero in the rolling-resistance window,
      force is the rolling resistance until it starts to rise, and the
      wake-up pressure is below 1 bar. */
  lemma GeneratedRun(n: int, u1: Draw, u2: Draw, u3: Draw, bt: BrakeTest, g: Generated)
    requires 0 <= n && Init(n, u1, u2, u3) == Success(bt)
    requires GenerateData(bt) == Success(g)
    ensures 2 <= bt.nRoll && 1 <= bt.forceDelay
    ensures |g.press| == |g.force| == n
    ensures bt.nRoll + bt.forceDelay + 2 <= g.tCutoff < n
    ensures forall i :: 0 <= i < g.tCutoff ==> g.press[i] < MaxPress && g.force[i] < MaxForce
    ensures MaxPress <= g.press[g.tCutoff] || MaxForce <= g.force[g.tCutoff]
    ensures forall i :: g.tCutoff <= i < n ==>
              g.press[i] == g.press[g.tCutoff] && g.force[i] == g.force[g.tCutoff]
    ensures NonDecreasing(g.press) && NonDecreasing(g.force)
    ensures forall i :: 0 <= i < bt.nRoll ==> g.press[i] == 0.0
    ensures forall i :: 0 <= i < bt.nRoll + bt.forceDelay ==> g.force[i] == bt.rollRes
    ensures 0.2 <= g.press[bt.nRoll + bt.forceDelay] < 1.0
  {
    InitSlopesInRange(n, u1, u2, u3, bt);
    InitialisedRunIsLong(bt);
    GeneratedFrom(bt, g);
  }

  /** The rolling-resistance window and the force delay both fit in the run. */
  ghost predicate RampsFit(bt: BrakeTest) {
    0 <= bt.nRoll && 0 <= bt.forceDelay && bt.nRoll + bt.forceDelay < bt.n
  }

  /** The ideal ramps of a generator after the cutoff rule. */
  function IdealClipped(bt: BrakeTest): (c: Clipped)
    requires RampsFit(bt)
    ensures |c.press| == |c.force| == bt.n
  {
    ApplyCutoff(PressureRamp(bt.n, bt.nRoll, bt.pressK),
                ForceRamp(bt.n, bt.nRoll + bt.forceDelay, bt.rollRes, bt.forceK))
  }

  /** `GeneratedRun` for any generator whose slopes are in range. */
  lemma GeneratedFrom(bt: BrakeTest, g: Generated)
    requires Initialised(bt) && 9 <= bt.n && SlopesInRange(bt)
    requires GenerateData(bt) == Success(g)
    ensures bt.nRoll + bt.forceDelay + 2 <= g.tCutoff < bt.n
    ensures forall i :: 0 <= i < g.tCutoff ==> g.press[i] < MaxPress && g.force[i] < MaxForce
    ensures MaxPress <= g.press[g.tCutoff] || MaxForce <= g.force[g.tCutoff]
    ensures forall i :: g.tCutoff <= i < bt.n ==>
              g.press[i] == g.press[g.tCutoff] && g.force[i] == g.force[g.tCutoff]
    ensures NonDecreasing(g.press) && NonDecreasing(g.force)
    ensures forall i :: 0 <= i < bt.nRoll ==> g.press[i] == 0.0
    ensures forall i :: 0 <= i < bt.nRoll + bt.forceDelay ==> g.force[i] == bt.rollRes
    ensures 0.2 <= g.press[bt.nRoll + bt.forceDelay] < 1.0
  {
    var c := IdealClipped(bt);
    assert g == Generated(Arange(bt.n), c.press, c.force, c.tCutoff);
    IdealClippedCutoff(bt);
    IdealClippedShape(bt);
  }

  /** The series `generate_data` leaves behind are the cutoff rule applied
      to the two ideal ramps: up to the cutoff they are the ramps themselves,
      and from it on both stay at the ramps' value there. */
  lemma GeneratedIsCutoffOfRamps(bt: BrakeTest, g: Generated)
    requires Initialised(bt)
    requires GenerateData(bt) == Success(g)
    ensures RampsFit(bt)
    ensures var c := ApplyCutoff(PressureRamp(bt.n, bt.nRoll, bt.pressK),
                                 ForceRamp(bt.n, bt.nRoll + bt.forceDelay, bt.rollRes, bt.forceK));
      g.tCutoff == c.tCutoff && g.press == c.press && g.force == c.force
    ensures forall i :: 0 <= i < g.tCutoff ==>
              && g.press[i] == PressureRamp(bt.n, bt.nRoll, bt.pressK)[i]
              && g.force[i] == ForceRamp(bt.n, bt.nRoll + bt.forceDelay, bt.rollRes, bt.forceK)[i]
    ensures forall i :: g.tCutoff <= i < bt.n ==>
              && g.press[i] == PressureRamp(bt.n, bt.nRoll, bt.pressK)[g.tCutoff]
              && g.force[i] == ForceRamp(bt.n, bt.nRoll + bt.forceDelay, bt.rollRes, bt.forceK)[g.tCutoff]
  {
    InitialisedRunIsLong(bt);
    IdealClippedUnfolds(bt);
  }

  lemma IdealClippedUnfolds(bt: BrakeTest)
    requires RampsFit(bt)
    ensures IdealClipped(bt) == ApplyCutoff(PressureRamp(bt.n, bt.nRoll, bt.pressK),
              ForceRamp(bt.n, bt.nRoll + bt.forceDelay, bt.rollRes, bt.forceK))
  {
  }

  /** The cutoff rule on any two non-decreasing series that are still below
      their maxima at `s + 1` and whose pressure reaches its maximum by the
      end: the cutoff is the first breach and lies in `(s + 1, |press|)`,
      and the clipped series stay non-decreasing. */
  lemma ClippedRun(press: seq<real>, force: seq<real>, s: nat)
    requires |press| == |force| && s + 2 <= |press|
    requires NonDecreasing(press) && NonDecreasing(force)
    requires press[s + 1] < MaxPress && force[s + 1] < MaxForce
    requires MaxPress <= press[|press| - 1]
    ensures var c := ApplyCutoff(press, force);
      && s + 2 <= c.tCutoff < |press|
      && (forall i :: 0 <= i < c.tCutoff ==> c.press[i] < MaxPress && c.force[i] < MaxForce)
      && (MaxPress <= c.press[c.tCutoff] || MaxForce <= c.force[c.tCutoff])
      && NonDecreasing(c.press) && NonDecreasing(c.force)
  {
    CutoffBetween(press, force, s + 1);
    CutoffIsFirstBreach(press, force);
    CutoffKeepsOrder(press, force);
  }

  lemma IdealClippedCutoff(bt: BrakeTest)
    requires Initialised(bt) && 9 <= bt.n && SlopesInRange(bt)
    ensures var c := IdealClipped(bt);
      && bt.nRoll + bt.forceDelay + 2 <= c.tCutoff < bt.n
      && (forall i :: 0 <= i < c.tCutoff ==> c.press[i] < MaxPress && c.force[i] < MaxForce)
      && (MaxPress <= c.press[c.tCutoff] || MaxForce <= c.force[c.tCutoff])
      && (forall i :: c.tCutoff <= i < bt.n ==>
            c.press[i] == c.press[c.tCutoff] && c.force[i] == c.force[c.tCutoff])
      && NonDecreasing(c.press) && NonDecreasing(c.force)
  {
    InitialisedRunIsLong(bt);
    IdealClippedUnfolds(bt);
    IdealPressureLandmarks(bt);
    IdealForceLandmarks(bt);
    ClippedRun(PressureRamp(bt.n, bt.nRoll, bt.pressK),
               ForceRamp(bt.n, bt.nRoll + bt.forceDelay, bt.rollRes, bt.forceK),
               bt.nRoll + bt.forceDelay);
  }

  lemma IdealClippedShape(bt: BrakeTest)
    requires Initialised(bt) && 9 <= bt.n && SlopesInRange(bt)
    ensures var c := IdealClipped(bt);
      && (forall i :: 0 <= i < bt.nRoll ==> c.press[i] == 0.0)
      && (forall i :: 0 <= i < bt.nRoll + bt.forceDelay ==> c.force[i] == bt.rollRes)
      && 0.2 <= c.press[bt.nRoll + bt.forceDelay] < 1.0
  {
    InitialisedRunIsLong(bt);
    IdealClippedUnfolds(bt);
    IdealPressureLandmarks(bt);
    CutoffWindow(bt);
  }

  /** For a generator with slopes in range the cutoff falls strictly
      between the sample after the force delay and the end of the run. */
  lemma CutoffWindow(bt: BrakeTest)
    requires Initialised(bt) && 9 <= bt.n && SlopesInRange(bt)
    ensures bt.nRoll + bt.forceDelay + 2 <= bt.n
    ensures var p := PressureRamp(bt.n, bt.nRoll, bt.pressK);
      var f := ForceRamp(bt.n, bt.nRoll + bt.forceDelay, bt.rollRes, bt.forceK);
      bt.nRoll + bt.forceDelay + 1 < ApplyCutoff(p, f).tCutoff < bt.n
  {
    InitialisedRunIsLong(bt);
    var p := PressureRamp(bt.n, bt.nRoll, bt.pressK);
    var f := ForceRamp(bt.n, bt.nRoll + bt.forceDelay, bt.rollRes, bt.forceK);
    IdealPressureLandmarks(bt);
    IdealForceLandmarks(bt);
    CutoffBetween(p, f, bt.nRoll + bt.forceDelay + 1);
  }
}

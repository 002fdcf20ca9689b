/** What the fit stages receive from the generator: for every accepted
    run, the windows `plot_calc_6bar` and `plot_calc_z` sort are never too
    short for a straight-line fit, and on the noise-free series sorting by
    pressure leaves the pressures where they are. */
module Pipeline {
  import opened Results
  import opened Series
  import opened BrakeData
  import opened Generation
  import opened FitWindow

  lemma SliceNonDecreasing(a: seq<real>, lo: nat, hi: nat)
    requires NonDecreasing(a) && lo <= hi <= |a|
    ensures NonDecreasing(a[lo..hi])
  {
    assert forall i :: 0 <= i < hi - lo ==> a[lo..hi][i] == a[lo + i];
  }

  /** Sorting a window of a rising pressure series keeps its pressures in
      place. */
  lemma RisingWindow(press: seq<real>, force: seq<real>, lo: nat, hi: nat)
    requires |press| == |force| && NonDecreasing(press) && lo <= hi <= |press|
    ensures var d := SortWindow(press, force, lo, hi);
      |d.press| == hi - lo && d.press == press[lo..hi]
  {
    SliceNonDecreasing(press, lo, hi);
    SortingSortedWindowKeepsPressures(press, force, lo, hi);
  }

  /** What the fit stages get from the generator: equally long series, a
      non-decreasing pressure, and at least two samples between the end of
      the force delay `s` and the cutoff `t`. */
  ghost predicate RisingRun(press: seq<real>, force: seq<real>, s: nat, t: nat) {
    && |press| == |force|
    && s + 2 <= t <= |press|
    && NonDecreasing(press)
  }

  /** Every accepted run gives the fit stages a rising run, and all its
      pressures before the cutoff are below the maximum. */
  lemma AcceptedRunRises(bt: BrakeTest, g: Generated)
    requires Initialised(bt) && 9 <= bt.n && SlopesInRange(bt)
    requires GenerateData(bt) == Success(g)
    ensures 2 <= bt.nRoll && 1 <= bt.forceDelay
    ensures RisingRun(g.press, g.force, bt.nRoll + bt.forceDelay, g.tCutoff)
    ensures g.tCutoff < |g.press| == bt.n
    ensures forall i :: 0 <= i < g.tCutoff ==> g.press[i] < MaxPress
  {
    InitialisedRunIsLong(bt);
    GeneratedFrom(bt, g);
  }

  /** The 6-bar fit window of a rising run holds at least two samples, and
      its sorted pressures are the run's in their original order. */
  lemma SixBarWindowOfRisingRun(press: seq<real>, force: seq<real>, nRoll: nat, forceDelay: nat, tCutoff: nat)
    requires RisingRun(press, force, nRoll + forceDelay, tCutoff)
    ensures var d := SixBarWindow(press, force, nRoll, forceDelay, tCutoff);
      && 2 <= |d.press| == tCutoff - (nRoll + forceDelay)
      && d.press == press[nRoll + forceDelay..tCutoff]
  {
    RisingWindow(press, force, nRoll + forceDelay, tCutoff);
  }

  /** The z window of a rising run runs to the end of the series, holds at
      least two samples, and its sorted pressures are again the run's in
      order. */
  lemma ZWindowOfRisingRun(press: seq<real>, force: seq<real>, nRoll: nat, forceDelay: nat, tCutoff: nat)
    requires RisingRun(press, force, nRoll + forceDelay, tCutoff)
    ensures var d := ZWindow(press, force, nRoll, forceDelay);
      && 2 <= |d.press| == |press| - (nRoll + forceDelay)
      && d.press == press[nRoll + forceDelay..]
  {
    RisingWindow(press, force, nRoll + forceDelay, |press|);
    assert press[nRoll + forceDelay..|press|] == press[nRoll + forceDelay..];
  }
}

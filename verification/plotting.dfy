/** The plain-data part of `BrakePlotting`: `line_from_pts` and the
    key-press stage machine `create_plot` / `advance_plot`. Drawing is not
    modelled; each stage is reduced to the attributes it reads and writes. */
module Plotting {
  import opened Results

  /** Slope and intercept: `[a, b]` for the line `y = a*x + b`. Both
      `line_from_pts` and the least-squares fit `lin_fit` have this shape. */
  datatype Line = Line(slope: real, intercept: real)

  predicate OnLine(l: Line, x: real, y: real) {
    l.slope * x + l.intercept == y
  }

  /** `line_from_pts`: the line through two points; equal abscissae divide
      by zero. */
  function LineFromPts(x0: real, y0: real, x1: real, y1: real): (r: Result<Line>)
    ensures r.Failure? <==> x0 == x1
    ensures r.Failure? ==> r.error == ZeroDivisionError
    ensures r.Success? ==> OnLine(r.value, x0, y0) && OnLine(r.value, x1, y1)
  {
    if x1 - x0 == 0.0 then Failure(ZeroDivisionError)
    else
      var a := (y1 - y0) / (x1 - x0);
      Success(Line(a, y0 - a * x0))
  }

  /** Only one line passes through two points with different abscissae, so
      `line_from_pts` returns exactly it. */
  lemma LineFromPtsIsTheLine(l: Line, x0: real, y0: real, x1: real, y1: real)
    requires x0 != x1 && OnLine(l, x0, y0) && OnLine(l, x1, y1)
    ensures LineFromPts(x0, y0, x1, y1) == Success(l)
  {
    var r := LineFromPts(x0, y0, x1, y1);
    SlopeOfTwoPoints(l, x0, y0, x1, y1);
    SlopeOfTwoPoints(r.value, x0, y0, x1, y1);
    assert r.value.intercept == y0 - r.value.slope * x0;
    assert l.intercept == y0 - l.slope * x0;
    assert r.value == l;
  }

  /** A line through two points rises by its slope times the run. */
  lemma SlopeOfTwoPoints(l: Line, x0: real, y0: real, x1: real, y1: real)
    requires x0 != x1 && OnLine(l, x0, y0) && OnLine(l, x1, y1)
    ensures l.slope == (y1 - y0) / (x1 - x0)
  {
    var dx, dy := x1 - x0, y1 - y0;
    assert l.slope * dx == dy by {
      assert l.slope * x1 - l.slope * x0 == l.slope * dx;
    }
  }

  /** Examples of `line_from_pts` at its two call sites, the upper edges of
      the brake corridors `plot_calc_z` draws: both start at 0.2 bar and
      reach z = 0.8, at 5.5 bar when unloaded and at 7.5 bar when loaded.
      The drawing itself is not modelled. */
  lemma UnloadedEdge()
    ensures LineFromPts(0.2, 0.0, 5.5, 0.8) == Success(Line(8.0 / 53.0, -1.6 / 53.0))
  {
    var a := 0.8 / 5.3;
    assert a == 8.0 / 53.0;
  }

  lemma LoadedEdge()
    ensures LineFromPts(0.2, 0.0, 7.5, 0.8) == Success(Line(8.0 / 73.0, -1.6 / 73.0))
  {
    var a := 0.8 / 7.3;
    assert a == 8.0 / 73.0;
  }

  /** The attributes of `BrakePlotting` the stages share: `status` (absent
      until `create_plot` runs) and `lin_fit` (absent until `plot_calc_6bar`
      runs). */
  datatype Controller = Controller(status: Option<int>, linFit: Option<Line>)

  /** A freshly constructed `BrakePlotting`. */
  const Fresh := Controller(None, None)

  /** `create_plot`: status 1; the fit is left alone. */
  function CreatePlot(c: Controller): (r: Controller)
    ensures r.status == Some(1) && r.linFit == c.linFit
  {
    c.(status := Some(1))
  }

  /** The controller after a key press, and the exception the press raised,
      if any. */
  datatype Step = Step(next: Controller, raised: Option<PyError>)

  /** `advance_plot` with `fit` the line `np.polyfit` computes in
      `plot_calc_6bar`:
      - without a plot (`status` unset) `reset_plot` fails on the missing
        axes;
      - 1 -> 2 draws the raw data;
      - 2 -> 3 stores the fit;
      - 3 -> 4 reads the fit, failing after the status is set if there is
        none;
      - 4 -> 1;
      - any other status stays. */
  function AdvancePlot(c: Controller, fit: Line): (s: Step)
    // only a missing plot or a missing fit raise, and both are attribute errors
    ensures s.raised.Some? <==> c.status.None? || (c.status == Some(3) && c.linFit.None?)
    ensures s.raised.Some? ==> s.raised.value == AttributeError
    ensures c.status.None? ==> s.next == c
    // statuses 1 to 4 move on cyclically; others are left as they are
    ensures c.status.Some? ==> s.next.status.Some?
    ensures c.status.Some? && 1 <= c.status.value <= 4 ==>
              s.next.status.value == c.status.value % 4 + 1
    ensures c.status.Some? && !(1 <= c.status.value <= 4) ==> s.next == c
    // only the 2 -> 3 press writes the fit
    ensures c.status == Some(2) ==> s.next.linFit == Some(fit)
    ensures c.status != Some(2) ==> s.next.linFit == c.linFit
  {
    match c.status
    case None => Step(c, Some(AttributeError))
    case Some(st) =>
      if st == 1 then Step(c.(status := Some(2)), None)
      else if st == 2 then Step(Controller(Some(3), Some(fit)), None)
      else if st == 3 then
        var next := c.(status := Some(4));
        if c.linFit.None? then Step(next, Some(AttributeError)) else Step(next, None)
      else if st == 4 then Step(c.(status := Some(1)), None)
      else Step(c, None)
  }

  /** What holds between key presses once the plot exists: the status is
      one of the four stages, and from stage 3 on the fit is there. */
  ghost predicate Consistent(c: Controller) {
    && c.status.Some?
    && 1 <= c.status.value <= 4
    && (c.status.value >= 3 ==> c.linFit.Some?)
  }

  /** From a consistent controller a key press never raises and leads to a
      consistent controller. */
  lemma AdvanceKeepsConsistent(c: Controller, fit: Line)
    requires Consistent(c)
    ensures AdvancePlot(c, fit).raised.None?
    ensures Consistent(AdvancePlot(c, fit).next)
  {
  }

  /** Stage 4 is entered only by a press in stage 3. */
  lemma StageFourOnlyFromThree(c: Controller, fit: Line)
    requires c.status.Some? && AdvancePlot(c, fit).next.status == Some(4)
    ensures c.status == Some(3)
  {
  }

  /** The controller after `create_plot` and one key press per entry of
      `fits`; entry `k` is the fit the `k`-th press would compute. */
  function Run(fits: seq<Line>): (c: Controller)
    ensures Consistent(c)
    ensures c.status == Some(|fits| % 4 + 1)
  {
    if |fits| == 0 then CreatePlot(Fresh)
    else
      var before := Run(fits[..|fits| - 1]);
      AdvancePlot(before, fits[|fits| - 1]).next
  }

  /** No key press after `create_plot` ever raises. */
  lemma RunNeverRaises(fits: seq<Line>, k: nat)
    requires k < |fits|
    ensures AdvancePlot(Run(fits[..k]), fits[k]).raised.None?
  {
    AdvanceKeepsConsistent(Run(fits[..k]), fits[k]);
  }

  /** In stages 3 and 4 the stored fit is the one computed by the most
      recent 2 -> 3 press, so the stage-4 plot uses the fit of the data the
      stage-3 plot showed. */
  lemma {:induction false} FitIsFromLastStageThree(fits: seq<Line>)
    requires |fits| % 4 >= 2
    ensures Run(fits).linFit == Some(fits[|fits| - |fits| % 4 + 1])
  {
    var last := |fits| - 1;
    var prefix := fits[..last];
    if |fits| % 4 == 3 {
      FitIsFromLastStageThree(prefix);
      assert prefix[|prefix| - |prefix| % 4 + 1] == fits[|fits| - |fits| % 4 + 1];
    }
  }

  /** Four key presses bring a consistent controller back to its stage. */
  lemma FourPressesReturn(c: Controller, f1: Line, f2: Line, f3: Line, f4: Line)
    requires Consistent(c)
    ensures var c1 := AdvancePlot(c, f1).next;
            var c2 := AdvancePlot(c1, f2).next;
            var c3 := AdvancePlot(c2, f3).next;
            AdvancePlot(c3, f4).next.status == c.status
  {
    var c1 := AdvancePlot(c, f1).next;
    AdvanceKeepsConsistent(c, f1);
    var c2 := AdvancePlot(c1, f2).next;
    AdvanceKeepsConsistent(c1, f2);
    var c3 := AdvancePlot(c2, f3).next;
    AdvanceKeepsConsistent(c2, f3);
  }
}

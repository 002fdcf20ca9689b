/** The sort step that `plot_calc_6bar` and `plot_calc_z` run before the
    line fit: take the samples from the end of the force delay on, order
    them by pressure with `np.argsort`, and carry each force along with its
    pressure. `np.argsort` is not stable, so the model fixes one sorted
    permutation and proves that every sorted permutation has the same
    pressures. */
module FitWindow {
  import opened Series

  /** One measurement: a pressure and the force recorded with it. */
  datatype Sample = Sample(press: real, force: real)

  /** Pair the two series index by index. */
  function Zip(press: seq<real>, force: seq<real>): (s: seq<Sample>)
    requires |press| == |force|
    ensures |s| == |press|
    ensures forall i :: 0 <= i < |s| ==> s[i] == Sample(press[i], force[i])
  {
    seq(|press|, i requires 0 <= i < |press| => Sample(press[i], force[i]))
  }

  function Pressures(s: seq<Sample>): (p: seq<real>)
    ensures |p| == |s|
    ensures forall i :: 0 <= i < |s| ==> p[i] == s[i].press
  {
    seq(|s|, i requires 0 <= i < |s| => s[i].press)
  }

  function Forces(s: seq<Sample>): (f: seq<real>)
    ensures |f| == |s|
    ensures forall i :: 0 <= i < |s| ==> f[i] == s[i].force
  {
    seq(|s|, i requires 0 <= i < |s| => s[i].force)
  }

  /** Splitting samples into their two series and pairing them again gives
      the samples back, and the other way round. */
  lemma ZipUnzip(s: seq<Sample>, press: seq<real>, force: seq<real>)
    requires |press| == |force|
    ensures Zip(Pressures(s), Forces(s)) == s
    ensures Pressures(Zip(press, force)) == press && Forces(Zip(press, force)) == force
  {
  }

  ghost predicate SortedByPressure(s: seq<Sample>) {
    NonDecreasing(Pressures(s))
  }

  /** Insert one sample into a run sorted by pressure. */
  function Insert(x: Sample, s: seq<Sample>): (r: seq<Sample>)
    requires SortedByPressure(s)
    ensures |r| == |s| + 1
    ensures r[0] == x || (|s| > 0 && r[0] == s[0])
    ensures SortedByPressure(r)
    ensures multiset(r) == multiset(s) + multiset{x}
  {
    if |s| == 0 then [x]
    else if x.press <= s[0].press then
      ConsSorted(x, s);
      [x] + s
    else
      SortedTail(s);
      var rest := Insert(x, s[1..]);
      ConsSorted(s[0], rest);
      assert s == [s[0]] + s[1..];
      [s[0]] + rest
  }

  /** A sample no heavier than the head of a sorted run may go in front. */
  lemma ConsSorted(x: Sample, r: seq<Sample>)
    requires SortedByPressure(r) && (|r| > 0 ==> x.press <= r[0].press)
    ensures SortedByPressure([x] + r)
  {
    var p := Pressures([x] + r);
    forall i, j | 0 <= i <= j < |p|
      ensures p[i] <= p[j]
    {
      if 0 < i {
        assert p[i] == Pressures(r)[i - 1] && p[j] == Pressures(r)[j - 1];
      } else if 0 < j {
        assert Pressures(r)[0] <= Pressures(r)[j - 1];
      }
    }
  }

  lemma SortedTail(s: seq<Sample>)
    requires SortedByPressure(s) && |s| > 0
    ensures SortedByPressure(s[1..])
  {
    assert Pressures(s[1..]) == Pressures(s)[1..];
    TailNonDecreasing(Pressures(s));
  }

  /** Order samples by pressure; one of the orders `np.argsort` may pick. */
  function SortByPressure(s: seq<Sample>): (r: seq<Sample>)
    ensures SortedByPressure(r)
    ensures multiset(r) == multiset(s)
    ensures |r| == |s|
  {
    if |s| == 0 then []
    else
      assert s == [s[0]] + s[1..];
      Insert(s[0], SortByPressure(s[1..]))
  }

  /** Dropping the entry at `j` drops one copy of it from the multiset. */
  lemma RemoveAt<T>(s: seq<T>, j: nat)
    requires j < |s|
    ensures multiset(s[..j] + s[j + 1..]) == multiset(s) - multiset{s[j]}
  {
    assert s == s[..j] + [s[j]] + s[j + 1..];
  }

  lemma PressuresOfConcat(a: seq<Sample>, b: seq<Sample>)
    ensures Pressures(a + b) == Pressures(a) + Pressures(b)
  {
  }

  /** Dropping one sample drops one copy of its pressure. */
  lemma PressuresDropAt(s: seq<Sample>, j: nat)
    requires j < |s|
    ensures multiset(Pressures(s)) ==
              multiset(Pressures(s[..j] + s[j + 1..])) + multiset{s[j].press}
  {
    var p := Pressures(s);
    RemoveAt(p, j);
    PressuresOfConcat(s[..j], s[j + 1..]);
    assert p[..j] + p[j + 1..] == Pressures(s[..j] + s[j + 1..]);
  }

  /** Removing the same value from two permutations of each other leaves
      two permutations of each other. */
  lemma DropMatching<T>(a: seq<T>, b: seq<T>, j: nat)
    requires multiset(a) == multiset(b) && |a| > 0 && j < |b| && b[j] == a[0]
    ensures multiset(a[1..]) == multiset(b[..j] + b[j + 1..])
  {
    MultisetOfTail(a);
    RemoveAt(b, j);
  }

  lemma IndexOf<T>(s: seq<T>, x: T) returns (j: nat)
    requires x in multiset(s)
    ensures j < |s| && s[j] == x
  {
    j :| 0 <= j < |s| && s[j] == x;
  }

  /** Take the first sample out of `a` and a matching sample out of `b`:
      the rests are still permutations of each other, and both pressure
      multisets lose the same value. */
  lemma DropFirstSample(a: seq<Sample>, b: seq<Sample>) returns (rest: seq<Sample>)
    requires multiset(a) == multiset(b) && |a| > 0
    ensures |rest| == |b| - 1 == |a| - 1
    ensures multiset(a[1..]) == multiset(rest)
    ensures multiset(Pressures(a)) == multiset(Pressures(a[1..])) + multiset{a[0].press}
    ensures multiset(Pressures(b)) == multiset(Pressures(rest)) + multiset{a[0].press}
  {
    var j := IndexOf(b, a[0]);
    rest := b[..j] + b[j + 1..];
    DropMatching(a, b, j);
    PressuresDropFirst(a);
    PressuresDropAt(b, j);
  }

  lemma PressuresDropFirst(s: seq<Sample>)
    requires |s| > 0
    ensures multiset(Pressures(s)) == multiset(Pressures(s[1..])) + multiset{s[0].press}
  {
    assert Pressures(s) == [s[0].press] + Pressures(s[1..]);
  }

  /** Permuting samples permutes their pressures. */
  lemma {:induction false} PressuresOfPermutation(a: seq<Sample>, b: seq<Sample>)
    requires multiset(a) == multiset(b)
    ensures multiset(Pressures(a)) == multiset(Pressures(b))
    decreases |a|
  {
    if |a| == 0 {
      assert |b| == |multiset(b)| == 0;
    } else {
      var rest := DropFirstSample(a, b);
      PressuresOfPermutation(a[1..], rest);
    }
  }

  /** Two non-decreasing arrangements of one multiset start with the same
      value, its minimum. */
  lemma SortedHeadsAgree(p: seq<real>, q: seq<real>)
    requires NonDecreasing(p) && NonDecreasing(q)
    requires multiset(p) == multiset(q) && |p| > 0
    ensures |q| > 0 && p[0] == q[0]
  {
    assert p[0] in multiset(q) by { assert p[0] in multiset(p); }
    var j :| 0 <= j < |q| && q[j] == p[0];
    assert q[0] in multiset(p) by { assert q[0] in multiset(q); }
    var k :| 0 <= k < |p| && p[k] == q[0];
    assert q[0] <= q[j] && p[0] <= p[k];
  }

  /** Two non-decreasing arrangements of one multiset agree on their first
      value, and what follows it is again two such arrangements. */
  lemma SortedTails(p: seq<real>, q: seq<real>) returns (p': seq<real>, q': seq<real>)
    requires NonDecreasing(p) && NonDecreasing(q)
    requires multiset(p) == multiset(q) && |p| > 0
    ensures |q| > 0 && p[0] == q[0]
    ensures p' == p[1..] && q' == q[1..]
    ensures NonDecreasing(p') && NonDecreasing(q') && multiset(p') == multiset(q')
  {
    SortedHeadsAgree(p, q);
    p', q' := p[1..], q[1..];
    SameHeadSameTail(p, q);
    TailNonDecreasing(p);
    TailNonDecreasing(q);
  }

  lemma SameHeadSameTail<T>(p: seq<T>, q: seq<T>)
    requires multiset(p) == multiset(q) && |p| > 0 && |q| > 0 && p[0] == q[0]
    ensures multiset(p[1..]) == multiset(q[1..])
  {
    MultisetOfTail(p);
    MultisetOfTail(q);
  }

  lemma MultisetOfTail<T>(s: seq<T>)
    requires |s| > 0
    ensures multiset(s[1..]) == multiset(s) - multiset{s[0]}
  {
    assert s == [s[0]] + s[1..];
  }

  /** A multiset of reals has exactly one non-decreasing arrangement. */
  lemma {:induction false} SortedIsUnique(p: seq<real>, q: seq<real>)
    requires NonDecreasing(p) && NonDecreasing(q)
    requires multiset(p) == multiset(q)
    ensures p == q
    decreases |p|
  {
    if |p| == 0 {
      assert |q| == |multiset(q)| == 0;
    } else {
      var p', q' := SortedTails(p, q);
      SortedIsUnique(p', q');
      assert p == [p[0]] + p' == [q[0]] + q' == q;
    }
  }

  lemma TailNonDecreasing(p: seq<real>)
    requires NonDecreasing(p) && |p| > 0
    ensures NonDecreasing(p[1..])
  {
    assert forall i :: 0 <= i < |p| - 1 ==> p[1..][i] == p[i + 1];
  }

  /** Whichever sorted permutation `np.argsort` picks, the sorted pressures
      are the same; only forces of equal pressures can come out in a
      different order. */
  lemma SortedPermutationsShareKeys(a: seq<Sample>, b: seq<Sample>)
    requires SortedByPressure(a) && SortedByPressure(b)
    requires multiset(a) == multiset(b)
    ensures Pressures(a) == Pressures(b)
  {
    PressuresOfPermutation(a, b);
    SortedIsUnique(Pressures(a), Pressures(b));
  }

  /** The sorted pressures and forces that go into the line fit. */
  datatype FitData = FitData(press: seq<real>, force: seq<real>)

  /** `press_axis[lo:hi]` and `force_axis[lo:hi]`, sorted together by
      pressure. */
  function SortWindow(press: seq<real>, force: seq<real>, lo: nat, hi: nat): (d: FitData)
    requires |press| == |force|
    ensures |d.press| == |d.force| == |PySlice(press, lo, hi)|
    ensures NonDecreasing(d.press)
    // every (pressure, force) pair of the window comes out exactly once
    ensures multiset(Zip(d.press, d.force)) ==
              multiset(Zip(PySlice(press, lo, hi), PySlice(force, lo, hi)))
  {
    var s := SortByPressure(Zip(PySlice(press, lo, hi), PySlice(force, lo, hi)));
    ZipUnzip(s, [], []);
    FitData(Pressures(s), Forces(s))
  }

  /** The data `plot_calc_6bar` fits: the samples from the end of the force
      delay up to the cutoff. */
  function SixBarWindow(press: seq<real>, force: seq<real>, nRoll: nat, forceDelay: nat, tCutoff: nat): (d: FitData)
    requires |press| == |force|
    ensures |d.press| == |d.force| == |PySlice(press, nRoll + forceDelay, tCutoff)|
    ensures NonDecreasing(d.press)
    ensures multiset(Zip(d.press, d.force)) ==
              multiset(Zip(PySlice(press, nRoll + forceDelay, tCutoff),
                           PySlice(force, nRoll + forceDelay, tCutoff)))
  {
    SortWindow(press, force, nRoll + forceDelay, tCutoff)
  }

  /** The data `plot_calc_z` sorts: the samples from the end of the force
      delay to the end of the run. */
  function ZWindow(press: seq<real>, force: seq<real>, nRoll: nat, forceDelay: nat): (d: FitData)
    requires |press| == |force|
    ensures |d.press| == |d.force| == |PySlice(press, nRoll + forceDelay, |press|)|
    ensures NonDecreasing(d.press)
    ensures multiset(Zip(d.press, d.force)) ==
              multiset(Zip(PySlice(press, nRoll + forceDelay, |press|),
                           PySlice(force, nRoll + forceDelay, |press|)))
  {
    SortWindow(press, force, nRoll + forceDelay, |press|)
  }

  /** When the pressures of the window already rise, sorting leaves them
      as they are: the sorted pressures are exactly the window's. */
  lemma SortingSortedWindowKeepsPressures(press: seq<real>, force: seq<real>, lo: nat, hi: nat)
    requires |press| == |force|
    requires NonDecreasing(PySlice(press, lo, hi))
    ensures SortWindow(press, force, lo, hi).press == PySlice(press, lo, hi)
  {
    var w := Zip(PySlice(press, lo, hi), PySlice(force, lo, hi));
    var d := SortWindow(press, force, lo, hi);
    ZipUnzip(w, PySlice(press, lo, hi), PySlice(force, lo, hi));
    PressuresOfPermutation(Zip(d.press, d.force), w);
    ZipUnzip(w, d.press, d.force);
    SortedIsUnique(d.press, PySlice(press, lo, hi));
  }
}

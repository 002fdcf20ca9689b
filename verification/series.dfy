/** The handful of numpy array operations the brake test generator uses,
    stated on immutable sequences. */
module Series {

  /** `np.arange(0, n)`: the time axis 0, 1, ..., n - 1. */
  function Arange(n: nat): (t: seq<int>)
    ensures |t| == n
    ensures forall i :: 0 <= i < n ==> t[i] == i
  {
    seq(n, i => i)
  }

  /** `np.zeros(n) + v`: n copies of v. */
  function Full(n: nat, v: real): (a: seq<real>)
    ensures |a| == n
    ensures forall i :: 0 <= i < n ==> a[i] == v
  {
    seq(n, _ => v)
  }

  /** The slice assignment `a[start:] = tail`: the first `start` entries are
      kept and the rest replaced, element for element, by `tail`. */
  function AssignTail(a: seq<real>, start: nat, tail: seq<real>): (r: seq<real>)
    requires start <= |a| && |tail| == |a| - start
    ensures |r| == |a|
    ensures forall i :: 0 <= i < start ==> r[i] == a[i]
    ensures forall i :: start <= i < |a| ==> r[i] == tail[i - start]
  {
    a[..start] + tail
  }

  /** The broadcast assignment `a[c:] = a[c]`: every entry from index `c` on
      is frozen at the value `a` has at `c`. */
  function FreezeFrom(a: seq<real>, c: nat): (r: seq<real>)
    requires c < |a|
    ensures |r| == |a|
    ensures forall i :: 0 <= i < c ==> r[i] == a[i]
    ensures forall i :: c <= i < |a| ==> r[i] == a[c]
  {
    AssignTail(a, c, Full(|a| - c, a[c]))
  }

  ghost predicate NonDecreasing(a: seq<real>) {
    forall i, j :: 0 <= i <= j < |a| ==> a[i] <= a[j]
  }

  /** `np.size(a[a < thr])`: how many entries lie strictly below `thr`. */
  function CountBelow(a: seq<real>, thr: real): (r: nat)
    ensures r <= |a|
  {
    if |a| == 0 then 0
    else
      var rest := CountBelow(a[1..], thr);
      if a[0] < thr then 1 + rest else rest
  }

  /** The count is the whole length exactly when every entry is below the
      threshold, and zero exactly when none is. */
  lemma {:induction false} CountBelowAllOrNone(a: seq<real>, thr: real)
    ensures CountBelow(a, thr) == |a| <==> forall i :: 0 <= i < |a| ==> a[i] < thr
    ensures CountBelow(a, thr) == 0 <==> forall i :: 0 <= i < |a| ==> thr <= a[i]
  {
    if |a| > 0 {
      CountBelowAllOrNone(a[1..], thr);
      assert forall i :: 1 <= i < |a| ==> a[i] == a[1..][i - 1];
    }
  }

  /** On a non-decreasing series the count below a threshold is the index
      where the series first reaches the threshold: everything before it is
      below, everything from it on is at or above. */
  lemma {:induction false} CountBelowSplitsSorted(a: seq<real>, thr: real)
    requires NonDecreasing(a)
    ensures forall i :: 0 <= i < CountBelow(a, thr) ==> a[i] < thr
    ensures forall i :: CountBelow(a, thr) <= i < |a| ==> thr <= a[i]
  {
    if |a| > 0 {
      var tail := a[1..];
      assert NonDecreasing(tail);
      CountBelowSplitsSorted(tail, thr);
      assert forall i :: 1 <= i < |a| ==> a[i] == tail[i - 1];
      if thr <= a[0] {
        CountBelowAllOrNone(tail, thr);
        assert CountBelow(tail, thr) == 0;
      }
    }
  }

  /** Consequently, on a non-decreasing series, any index that splits the
      series into "below" and "at or above" is the count below. */
  lemma CountBelowIsFirstReach(a: seq<real>, thr: real, k: nat)
    requires NonDecreasing(a)
    requires k <= |a|
    requires forall i :: 0 <= i < k ==> a[i] < thr
    requires k < |a| ==> thr <= a[k]
    ensures CountBelow(a, thr) == k
  {
    CountBelowSplitsSorted(a, thr);
    var r := CountBelow(a, thr);
    if k < |a| {
      assert thr <= a[k];  // so k is not below the count
    }
    if r < |a| {
      assert thr <= a[r];  // so the count is not below k
    }
  }

  /** Python slicing `a[lo:hi]` for non-negative bounds: bounds past the end
      are cut back to the end, and an empty slice results when `hi <= lo`. */
  function PySlice<T>(a: seq<T>, lo: nat, hi: nat): (r: seq<T>)
    ensures lo <= hi <= |a| ==> r == a[lo..hi]
    ensures hi <= lo || |a| <= lo ==> r == []
    ensures lo <= |a| <= hi ==> r == a[lo..]
  {
    var l := if lo < |a| then lo else |a|;
    var h := if hi < |a| then hi else |a|;
    if h <= l then [] else a[l..h]
  }
}

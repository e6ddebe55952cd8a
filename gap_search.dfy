/**
 Stage 2 of the follow-the-gap pipeline: the longest run of consecutive
 readings farther than the clearance threshold. One left-to-right pass keeps
 the length of the current run and the best run seen so far; a run replaces
 the best only when strictly longer, so the leftmost of equally long runs wins.
 When no reading is clear the search reports the interval [0, 0].
 */
module GapSearch {

  /** Readings farther than this (in metres) count as free space. */
  const ClearDistance: real := 1.23

  predicate IsClear(x: real) {
    x > ClearDistance
  }

  /** Every reading with index in the closed interval [lo, hi] is clear. */
  ghost predicate AllClear(s: seq<real>, lo: int, hi: int) {
    0 <= lo && hi < |s| && forall j :: lo <= j <= hi ==> IsClear(s[j])
  }

  ghost predicate AnyClear(s: seq<real>) {
    exists j :: 0 <= j < |s| && IsClear(s[j])
  }

  /**
   The gap the search must report. With no clear reading it is the fixed
   interval [0, 0]; otherwise it is a clear interval that no clear interval
   is longer than, and that starts no later than any clear interval of the
   same length.
   */
  ghost predicate IsMaxGap(s: seq<real>, start: int, end: int) {
    if !AnyClear(s) then
      start == 0 && end == 0
    else
      && start <= end
      && AllClear(s, start, end)
      && (forall lo, hi :: AllClear(s, lo, hi) ==> hi - lo <= end - start)
      && (forall lo, hi :: AllClear(s, lo, hi) && hi - lo == end - start ==> start <= lo)
  }

  /** The length of the clear run that ends just before index `k`. */
  function RunBefore(s: seq<real>, k: nat): (r: nat)
    requires k <= |s|
    ensures r <= k
    ensures r > 0 ==> IsClear(s[k - 1])
  {
    if k == 0 || !IsClear(s[k - 1]) then 0 else RunBefore(s, k - 1) + 1
  }

  /** The run counted by RunBefore is made of clear readings. */
  lemma {:induction false} RunBeforeIsClear(s: seq<real>, k: nat)
    requires k <= |s| && RunBefore(s, k) > 0
    ensures AllClear(s, k - RunBefore(s, k), k - 1)
  {
    if RunBefore(s, k - 1) > 0 {
      RunBeforeIsClear(s, k - 1);
    }
  }

  /** A clear interval ending at `hi` is covered by the run counted at hi + 1. */
  lemma {:induction false} RunBeforeCovers(s: seq<real>, lo: int, hi: int)
    requires lo <= hi && AllClear(s, lo, hi)
    ensures RunBefore(s, hi + 1) >= hi - lo + 1
  {
    if lo < hi {
      RunBeforeCovers(s, lo, hi - 1);
    }
  }

  /**
   The gap search of the controller. `curr` is the length of the clear run
   ending at the current reading; the best interval is replaced only by a
   strictly longer run.
   */
  method FindMaxGap(s: seq<real>) returns (start: nat, end: nat)
    ensures IsMaxGap(s, start, end)
    ensures |s| > 0 ==> start <= end < |s|
  {
    var maxgap: nat := 0;
    start, end := 0, 0;
    var curr: nat := 0;
    for i := 0 to |s|
      invariant curr == RunBefore(s, i)
      invariant forall k :: 0 <= k <= i ==> RunBefore(s, k) <= maxgap
      invariant maxgap == 0 ==> start == 0 && end == 0
      invariant maxgap > 0 ==> end < i && end - start + 1 == maxgap && RunBefore(s, end + 1) == maxgap
      invariant maxgap > 0 ==> forall k :: 0 <= k <= end ==> RunBefore(s, k) < maxgap
    {
      if s[i] > ClearDistance {
        curr := curr + 1;
        if curr > maxgap {
          maxgap := curr;
          end := i;
          start := i - maxgap + 1;
        }
      } else {
        curr := 0;
      }
    }
    if AnyClear(s) {
      var j :| 0 <= j < |s| && IsClear(s[j]);
      assert RunBefore(s, j + 1) > 0;
    }
    if maxgap > 0 {
      RunBeforeIsClear(s, end + 1);
      assert AnyClear(s) by { assert IsClear(s[end]); }
      forall lo, hi | AllClear(s, lo, hi)
        ensures hi - lo <= end - start
        ensures hi - lo == end - start ==> start <= lo
      {
        if lo <= hi {
          RunBeforeCovers(s, lo, hi);
        }
      }
    }
  }

  /** The specification determines the gap: at most one interval satisfies it. */
  lemma GapUnique(s: seq<real>, a: int, b: int, c: int, d: int)
    requires IsMaxGap(s, a, b) && IsMaxGap(s, c, d)
    ensures a == c && b == d
  {
  }

  /**
   Raising readings never shortens the reported gap: every clear interval of
   the old scan is still clear in the new one.
   */
  lemma GapGrowsWithClearance(s: seq<real>, t: seq<real>, a: int, b: int, c: int, d: int)
    requires |s| == |t| && forall j :: 0 <= j < |s| ==> s[j] <= t[j]
    requires IsMaxGap(s, a, b) && IsMaxGap(t, c, d)
    ensures b - a <= d - c
  {
    if AnyClear(s) {
      var j :| 0 <= j < |s| && IsClear(s[j]);
      assert IsClear(t[j]);
      assert AllClear(t, a, b);
    }
  }
}

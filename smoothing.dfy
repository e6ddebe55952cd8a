/**
 Stage 1 of the follow-the-gap pipeline: a three-point moving average over
 one laser scan. Interior readings are replaced by the mean of themselves and
 their two neighbours, always taken from the raw scan; the first and the last
 reading pass through unchanged.
 */
module Smoothing {

  /** The mean of reading `i` and its two neighbours in the raw scan. */
  function Average3(ranges: seq<real>, i: int): real
    requires 0 < i < |ranges| - 1
  {
    (ranges[i - 1] + ranges[i] + ranges[i + 1]) / 3.0
  }

  /** The smoothed scan, element by element, as a specification. */
  function Smoothed(ranges: seq<real>): (s: seq<real>)
    ensures |s| == |ranges|
    ensures |ranges| > 0 ==> s[0] == ranges[0] && s[|s| - 1] == ranges[|ranges| - 1]
    ensures |ranges| < 3 ==> s == ranges
  {
    seq(|ranges|, i requires 0 <= i < |ranges| =>
      if 0 < i < |ranges| - 1 then Average3(ranges, i) else ranges[i])
  }

  /**
   Copies the scan into a fresh buffer and overwrites every interior slot with
   the moving average of the ORIGINAL neighbours, as the source does by
   reading `ranges` while writing `prange`.
   */
  method Preprocess(ranges: seq<real>) returns (smoothed: seq<real>)
    ensures smoothed == Smoothed(ranges)
    ensures forall i :: 0 < i < |ranges| - 1 ==> smoothed[i] == Average3(ranges, i)
  {
    var prange := new real[|ranges|](j requires 0 <= j < |ranges| => ranges[j]);
    var i := 1;
    while i < |ranges| - 1
      invariant 1 <= i
      invariant |ranges| >= 2 ==> i <= |ranges| - 1
      invariant forall j :: 0 <= j < |ranges| ==>
        prange[j] == if 0 < j < i then Average3(ranges, j) else ranges[j]
    {
      prange[i] := (ranges[i - 1] + ranges[i] + ranges[i + 1]) / 3.0;
      i := i + 1;
    }
    smoothed := prange[..];
  }

  /** A constant scan is a fixed point of smoothing. */
  lemma SmoothedConstant(ranges: seq<real>, v: real)
    requires forall j :: 0 <= j < |ranges| ==> ranges[j] == v
    ensures forall i :: 0 <= i < |ranges| ==> Smoothed(ranges)[i] == v
  {
  }

  /**
   Every smoothed reading lies between the smallest and the largest raw
   reading: averaging never invents an obstacle nearer than the nearest raw
   return, nor clearance beyond the farthest.
   */
  lemma SmoothedWithinRaw(ranges: seq<real>, lo: real, hi: real)
    requires forall j :: 0 <= j < |ranges| ==> lo <= ranges[j] <= hi
    ensures forall i :: 0 <= i < |ranges| ==> lo <= Smoothed(ranges)[i] <= hi
  {
  }
}

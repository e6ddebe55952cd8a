/**
 Stage 5 of the follow-the-gap pipeline: the throttle command. The controller
 looks at the mean of a window covering the central 5% of the smoothed scan
 and at the nearest reading anywhere. When the centre is far (mean above 7 m)
 and the steering is nearly straight it drives at up to half throttle in
 proportion to that mean, capped at 10 m; otherwise a step function of the
 nearest reading chooses the throttle. Either way the result is scaled by a
 decay factor and by how little the vehicle is turning.
 */
module ThrottleControl {
  import opened Steering

  /** The share of the scan, around its middle, that counts as "ahead". */
  const TargetPercentage: real := 0.05
  /** Mean centre range (metres) above which the road ahead counts as clear. */
  const StraightClearance: real := 7.0
  /** Steering magnitude below which the vehicle counts as driving straight. */
  const StraightSteering: real := 0.1
  /** Centre ranges above this are treated as this (stands in for "no return"). */
  const RangeCap: real := 10.0
  const Decay: real := 0.9
  /** The largest base throttle: the straight branch at the range cap. */
  const MaxBaseThrottle: real := 0.5 * (10.0 + 0.01) / 10.0
  /** The largest command the controller can produce for a steering angle in [-1, 1]. */
  const MaxThrottle: real := 0.9 * 0.5005 * 1.01

  /** Conversion of a real to an integer by truncation toward zero. */
  function TruncToInt(x: real): (r: int)
    ensures x >= 0.0 ==> r as real <= x < r as real + 1.0
    ensures x < 0.0 ==> r as real - 1.0 < x <= r as real
  {
    if x >= 0.0 then x.Floor else -((-x).Floor)
  }

  /**
   The slice bounds [lo, hi) of the centre window of a scan of `n` readings:
   the middle index n / 2 plus or minus n * 5% / 2, each bound truncated.
   The window is empty exactly when the scan has fewer than two readings;
   otherwise it ends at or after the middle index, starts before it, and is
   within one reading of 5% of the scan wide.
   */
  function CenterWindow(n: nat): (w: (int, int))
    ensures 0 <= w.0 <= w.1 <= n
    ensures w.0 < w.1 <==> n >= 2
    ensures n >= 2 ==> w.0 < n / 2 <= w.1 < n
    ensures n >= 2 ==> n as real / 20.0 - 1.0 < (w.1 - w.0) as real < n as real / 20.0 + 1.0
  {
    var centermid := n / 2;
    var half := n as real * TargetPercentage / 2.0;
    assert half == n as real / 40.0;
    if n >= 2 then
      assert centermid as real - half > 0.0 by {
        assert (2 * centermid) as real >= n as real - 1.0;
      }
      (TruncToInt(centermid as real - half), TruncToInt(centermid as real + half))
    else
      assert n == 0 || half == 0.025;
      (TruncToInt(centermid as real - half), TruncToInt(centermid as real + half))
  }

  function Sum(s: seq<real>): real
  {
    if s == [] then 0.0 else s[0] + Sum(s[1..])
  }

  /** A sum of readings all above `c` exceeds `c` times their number. */
  lemma {:induction false} SumAbove(s: seq<real>, c: real)
    requires |s| > 0 && forall j :: 0 <= j < |s| ==> s[j] > c
    ensures Sum(s) > |s| as real * c
  {
    if |s| > 1 {
      SumAbove(s[1..], c);
    }
  }

  /** A sum of readings all below `c` falls short of `c` times their number. */
  lemma {:induction false} SumBelow(s: seq<real>, c: real)
    requires |s| > 0 && forall j :: 0 <= j < |s| ==> s[j] < c
    ensures Sum(s) < |s| as real * c
  {
    if |s| > 1 {
      SumBelow(s[1..], c);
    }
  }

  /**
   The mean of a non-empty slice s[lo..hi] lies between the least and the
   greatest reading in it.
   */
  lemma MeanBetween(s: seq<real>, lo: int, hi: int)
    requires 0 <= lo < hi <= |s|
    ensures exists j :: lo <= j < hi && s[j] <= Sum(s[lo..hi]) / (hi - lo) as real
    ensures exists k :: lo <= k < hi && s[k] >= Sum(s[lo..hi]) / (hi - lo) as real
  {
    var w := s[lo..hi];
    var mean := Sum(w) / |w| as real;
    assert |w| as real * mean == Sum(w);
    if forall j :: lo <= j < hi ==> s[j] > mean {
      assert forall j :: 0 <= j < |w| ==> w[j] == s[lo + j];
      SumAbove(w, mean);
    }
    if forall k :: lo <= k < hi ==> s[k] < mean {
      assert forall j :: 0 <= j < |w| ==> w[j] == s[lo + j];
      SumBelow(w, mean);
    }
  }

  /**
   The mean range over the centre window. It is bracketed by the readings in
   that window: some reading is no farther than it, some no nearer.
   */
  function CenterAverage(s: seq<real>): (avg: real)
    requires |s| >= 2
    ensures exists j :: CenterWindow(|s|).0 <= j < CenterWindow(|s|).1 && s[j] <= avg
    ensures exists k :: CenterWindow(|s|).0 <= k < CenterWindow(|s|).1 && s[k] >= avg
  {
    var (lo, hi) := CenterWindow(|s|);
    MeanBetween(s, lo, hi);
    Sum(s[lo..hi]) / |s[lo..hi]| as real
  }

  /** The nearest reading of a non-empty scan. */
  function Min(s: seq<real>): (m: real)
    requires |s| > 0
    ensures forall j :: 0 <= j < |s| ==> m <= s[j]
    ensures m in s
  {
    if |s| == 1 then s[0]
    else
      var rest := Min(s[1..]);
      assert forall j :: 1 <= j < |s| ==> s[j] == s[1..][j - 1];
      if s[0] <= rest then s[0] else rest
  }

  /**
   The reactive base throttle as a first-match chain over the nearest range.
   The second test repeats the first, so its value 0.3 is never chosen.
   */
  function StepThrottle(minDistance: real): (b: real)
    ensures b in {0.01, 0.04, 0.15, 0.2}
    ensures 0.01 <= b <= 0.2
  {
    if minDistance > 0.6 then 0.15
    else if minDistance > 0.6 then 0.3
    else if minDistance > 0.4 then 0.2
    else if minDistance > 0.12 then 0.15
    else if minDistance > 0.09 then 0.04
    else 0.01
  }

  /** The step function read as disjoint brackets of the nearest range. */
  lemma StepThrottleBrackets(d: real)
    ensures d > 0.6 ==> StepThrottle(d) == 0.15
    ensures 0.4 < d <= 0.6 ==> StepThrottle(d) == 0.2
    ensures 0.12 < d <= 0.4 ==> StepThrottle(d) == 0.15
    ensures 0.09 < d <= 0.12 ==> StepThrottle(d) == 0.04
    ensures d <= 0.09 ==> StepThrottle(d) == 0.01
  {
  }

  /**
   The step function is not monotone: an obstacle at 0.5 m allows more
   throttle than one at 1 m.
   */
  lemma StepThrottleNotMonotone()
    ensures StepThrottle(0.5) > StepThrottle(1.0)
  {
  }

  /** Whether the controller takes the "straight and clear" branch. */
  predicate DrivesStraight(centerAvg: real, steer: real) {
    centerAvg > StraightClearance && Abs(steer) < StraightSteering
  }

  /**
   The throttle before steering and decay are applied. The straight branch
   grows with the capped centre mean and lies in (0.3505, 0.5005]; the
   reactive branch is the step function of the nearest range.
   */
  function BaseThrottle(centerAvg: real, minDistance: real, steer: real): (b: real)
    ensures 0.0 < b <= MaxBaseThrottle
    ensures DrivesStraight(centerAvg, steer) ==> 0.3505 < b
    ensures DrivesStraight(centerAvg, steer) && centerAvg >= RangeCap ==> b == MaxBaseThrottle
    ensures !DrivesStraight(centerAvg, steer) ==> b == StepThrottle(minDistance)
  {
    if DrivesStraight(centerAvg, steer) then
      var capped := if centerAvg > RangeCap then RangeCap else centerAvg;
      0.5 * (capped + 0.01) / 10.0
    else
      StepThrottle(minDistance)
  }

  /** Throttle grows with the centre mean along the straight branch. */
  lemma BaseThrottleMonotoneInCenter(a1: real, a2: real, minDistance: real, steer: real)
    requires DrivesStraight(a1, steer) && a1 <= a2
    ensures BaseThrottle(a1, minDistance, steer) <= BaseThrottle(a2, minDistance, steer)
  {
  }

  /** The factor by which steering reduces the throttle; 1.01 when straight. */
  function SteeringScale(steer: real): (k: real)
    ensures k == 1.01 - Abs(steer)
    ensures -1.0 <= steer <= 1.0 ==> 0.01 <= k <= 1.01
  {
    1.0 - Abs(steer) + 0.01 / 1.0
  }

  lemma ProductMonotone(x1: real, x2: real, y1: real, y2: real)
    requires 0.0 <= x1 <= x2 && 0.0 <= y1 <= y2
    ensures x1 * y1 <= x2 * y2
  {
  }

  /**
   The throttle command given the steering command, the centre mean and the
   nearest range: the base throttle, decayed and scaled down by the steering
   magnitude. For a steering command within the actuator's range it is
   positive and at most MaxThrottle.
   */
  function ThrottleFrom(steer: real, centerAvg: real, minDistance: real): (t: real)
    ensures -1.0 <= steer <= 1.0 ==> 0.0 < t <= MaxThrottle
  {
    var base := BaseThrottle(centerAvg, minDistance, steer);
    assert -1.0 <= steer <= 1.0 ==> 0.0 < Decay * base * SteeringScale(steer) <= MaxThrottle by {
      if -1.0 <= steer <= 1.0 {
        var k := SteeringScale(steer);
        ProductMonotone(base, MaxBaseThrottle, k, 1.01);
        assert base * k > 0.0;
      }
    }
    Decay * base * SteeringScale(steer)
  }

  /**
   The throttle command for a smoothed scan and a steering command. The
   source divides by the length of the centre window, which is empty below
   two readings.
   */
  function Throttle(steer: real, s: seq<real>): (t: real)
    requires |s| >= 2
    ensures -1.0 <= steer <= 1.0 ==> 0.0 < t <= MaxThrottle
  {
    ThrottleFrom(steer, CenterAverage(s), Min(s))
  }

  /**
   Turning harder never speeds the vehicle up: for the same view ahead the
   throttle does not increase with the steering magnitude, even where the
   larger magnitude leaves the straight branch.
   */
  lemma ThrottleFallsWithSteering(a: real, b: real, centerAvg: real, minDistance: real)
    requires Abs(a) <= Abs(b) <= 1.0
    ensures ThrottleFrom(b, centerAvg, minDistance) <= ThrottleFrom(a, centerAvg, minDistance)
  {
    var ba, bb := BaseThrottle(centerAvg, minDistance, a), BaseThrottle(centerAvg, minDistance, b);
    assert bb <= ba;
    ProductMonotone(bb, ba, SteeringScale(b), SteeringScale(a));
  }

  /** The throttle depends only on the steering magnitude, not its side. */
  lemma ThrottleSymmetric(steer: real, centerAvg: real, minDistance: real)
    ensures ThrottleFrom(-steer, centerAvg, minDistance) == ThrottleFrom(steer, centerAvg, minDistance)
  {
  }

  /**
   Driving straight on a clear road is always faster than any reactive
   command, whatever the two views ahead are.
   */
  lemma StraightFasterThanReactive(a: real, avg1: real, min1: real, b: real, avg2: real, min2: real)
    requires -1.0 <= b <= 1.0
    requires DrivesStraight(avg1, a) && !DrivesStraight(avg2, b)
    ensures ThrottleFrom(b, avg2, min2) < ThrottleFrom(a, avg1, min1)
  {
    var ba, bb := BaseThrottle(avg1, min1, a), BaseThrottle(avg2, min2, b);
    var sa, sb := SteeringScale(a), SteeringScale(b);
    ProductMonotone(bb, 0.2, sb, 1.01);
    ProductMonotone(0.3505, ba, 0.91, sa);
    assert ThrottleFrom(b, avg2, min2) == Decay * bb * sb;
    assert ThrottleFrom(a, avg1, min1) == Decay * ba * sa;
    assert Decay * bb * sb <= 0.9 * 0.202;
    assert Decay * ba * sa >= 0.9 * 0.318955;
  }

  /**
   The straight branch is taken only when some reading in the centre window
   is beyond 7 m, and always when every one of them is and the steering is
   nearly straight.
   */
  lemma StraightMeansClearCentre(steer: real, s: seq<real>)
    requires |s| >= 2
    ensures DrivesStraight(CenterAverage(s), steer) ==>
      exists k :: CenterWindow(|s|).0 <= k < CenterWindow(|s|).1 && s[k] > StraightClearance
    ensures Abs(steer) < StraightSteering
      && (forall j :: CenterWindow(|s|).0 <= j < CenterWindow(|s|).1 ==> s[j] > StraightClearance)
      ==> DrivesStraight(CenterAverage(s), steer)
  {
  }

  /**
   Off the straight branch, a SMOOTHED reading within 9 cm anywhere in the
   scan the throttle stage receives drops the throttle to the lowest bracket.
   A raw reading that close need not: smoothing averages it with its
   neighbours first.
   */
  lemma NearObstacleCrawls(steer: real, s: seq<real>, i: int)
    requires |s| >= 2 && 0 <= i < |s| && s[i] <= 0.09 && -1.0 <= steer <= 1.0
    requires !DrivesStraight(CenterAverage(s), steer)
    ensures Throttle(steer, s) <= 0.9 * 0.01 * 1.01
  {
    var avg, near := CenterAverage(s), Min(s);
    assert BaseThrottle(avg, near, steer) == 0.01;
  }
}

/**
 The controller's scan callback without its publishing side: smooth the scan,
 find the widest gap, aim at its middle, and derive steering and throttle.
 The source computes everything before it publishes anything, so a scan on
 which a stage divides by zero publishes nothing at all.
 */
module Controller {
  import opened Smoothing
  import opened GapSearch
  import opened Steering
  import opened ThrottleControl

  /** What one scan leads to. */
  datatype Outcome =
    | Publish(steering: real, throttle: real)
      /** A stage raised a division by zero; neither command is published. */
    | ZeroDivision

  /**
   The pair of commands for a smoothed scan once the gap [start, end] is
   known. Both commands lie within the actuator's range.
   */
  function CommandFor(smoothed: seq<real>, start: int, end: int): (c: Outcome)
    requires |smoothed| >= 2
    ensures c.Publish?
    ensures -MaxSteeringAngle <= c.steering <= MaxSteeringAngle
    ensures 0.0 < c.throttle <= MaxThrottle
  {
    var steer := SteeringAngle(Midpoint(start, end), |smoothed|);
    Publish(steer, Throttle(steer, smoothed))
  }

  /**
   One run of the pipeline on a raw scan. An empty scan fails in the
   steering stage (it divides by the number of readings); a one-reading scan
   fails in the throttle stage (its centre window is empty). Every longer
   scan publishes the commands for the smoothed scan and its widest gap,
   which the ghost results `start` and `end` name.
   */
  method LidarCallback(ranges: seq<real>) returns (out: Outcome, ghost start: int, ghost end: int)
    ensures IsMaxGap(Smoothed(ranges), start, end)
    ensures out.ZeroDivision? <==> |ranges| < 2
    ensures out.Publish? ==> out == CommandFor(Smoothed(ranges), start, end)
    ensures out.Publish? ==>
      -MaxSteeringAngle <= out.steering <= MaxSteeringAngle && 0.0 < out.throttle <= MaxThrottle
  {
    var procranges := Preprocess(ranges);
    var gapStart, gapEnd := FindMaxGap(procranges);
    start, end := gapStart, gapEnd;
    var midgap := Midpoint(gapStart, gapEnd);
    if |ranges| == 0 {
      return ZeroDivision, start, end;
    }
    var steer := SteeringAngle(midgap, |ranges|);
    var window := CenterWindow(|procranges|);
    if window.0 >= window.1 {
      return ZeroDivision, start, end;
    }
    var throttle := Throttle(steer, procranges);
    out := Publish(steer, throttle);
    assert out == CommandFor(procranges, start, end);
  }

  /** The published commands do not depend on anything but the scan. */
  lemma OutcomeDetermined(s: seq<real>, a: int, b: int, c: int, d: int)
    requires |s| >= 2 && IsMaxGap(s, a, b) && IsMaxGap(s, c, d)
    ensures CommandFor(s, a, b) == CommandFor(s, c, d)
  {
  }

  /**
   The vehicle steers toward the gap: a gap entirely right of the centre
   index gives a positive command, one entirely left of it a negative one.
   */
  lemma SteersTowardGap(s: seq<real>, start: int, end: int)
    requires |s| >= 2 && IsMaxGap(s, start, end)
    ensures (start as real) > |s| as real / 2.0 ==> CommandFor(s, start, end).steering > 0.0
    ensures (end as real) < |s| as real / 2.0 ==> CommandFor(s, start, end).steering < 0.0
  {
  }

  /**
   With no clear reading the gap is [0, 0], the leftmost index, which lies
   Pi / 2 left of centre; the clamp turns that into full lock, -1.
   */
  lemma AllBlockedFullLock(s: seq<real>, start: int, end: int)
    requires |s| >= 2 && IsMaxGap(s, start, end) && !AnyClear(s)
    ensures CommandFor(s, start, end).steering == -MaxSteeringAngle
  {
    assert start == 0 && end == 0;
    assert RawAngle(0, |s|) == -Pi / 2.0;
  }

  /** Ten readings of 10 m: the all-clear scan of the source's own example size. */
  const TenClear: seq<real> := seq(10, _ => 10.0)

  /**
   On ten clear readings the gap is the whole scan and the vehicle aims at
   index 4, left of the centre 5, so the steering command is -Pi / 10. That is
   not "straight" (below 0.1 in magnitude), so the throttle comes from the
   step function of the nearest range, 0.15, not from the straight branch.
   */
  lemma TenClearScenario()
    ensures Smoothed(TenClear) == TenClear
    ensures IsMaxGap(TenClear, 0, 9)
    ensures CommandFor(TenClear, 0, 9) == Publish(-0.314159, 0.9 * 0.15 * (1.01 - 0.314159))
  {
    SmoothedConstant(TenClear, 10.0);
    assert AnyClear(TenClear) by { assert IsClear(TenClear[0]); }
    assert AllClear(TenClear, 0, 9);
    TenClearCommand();
  }

  /** The commands that the gap [0, 9] of ten 10 m readings leads to. */
  lemma TenClearCommand()
    ensures CommandFor(TenClear, 0, 9) == Publish(-0.314159, 0.9 * 0.15 * (1.01 - 0.314159))
  {
  }

  /** The centre window of ten readings is [4, 5), so the centre mean is 10. */
  lemma TenClearCenter()
    ensures CenterWindow(10) == (4, 5) && CenterAverage(TenClear) == 10.0
  {
    assert TenClear[4..5] == [10.0];
  }

  /**
   Ten readings of 9.9 m with one obstacle at 0.05 m at the centre index 5.
   */
  const CentreObstacle: seq<real> := [9.9, 9.9, 9.9, 9.9, 9.9, 0.05, 9.9, 9.9, 9.9, 9.9]

  /**
   The throttle stage sees the SMOOTHED scan: the 0.05 m reading is averaged
   with its two 9.9 m neighbours to about 6.62 m, and so are the readings on
   either side of it. Every smoothed reading is clear, the nearest is beyond
   0.6 m, and the commands are those of the all-clear scan: the vehicle does
   not slow down for the obstacle.
   */
  lemma CentreObstacleScenario()
    ensures Min(Smoothed(CentreObstacle)) > 0.6
    ensures IsMaxGap(Smoothed(CentreObstacle), 0, 9)
    ensures CommandFor(Smoothed(CentreObstacle), 0, 9) == Publish(-0.314159, 0.9 * 0.15 * (1.01 - 0.314159))
  {
    var s := Smoothed(CentreObstacle);
    CentreObstacleSmoothed();
    assert AnyClear(s) by { assert IsClear(s[0]); }
    assert AllClear(s, 0, 9);
    var near := Min(s);
    assert near in s;
    assert near > 0.6;
    CentreObstacleCenter();
    var steer := SteeringAngle(Midpoint(0, 9), 10);
    assert RawAngle(4, 10) == -0.314159;
    assert !DrivesStraight(CenterAverage(s), steer);
    assert BaseThrottle(CenterAverage(s), near, steer) == 0.15;
  }

  /** Smoothing spreads the obstacle over indices 4 to 6; the rest stay at 9.9 m. */
  lemma CentreObstacleSmoothed()
    ensures forall i :: 0 <= i < 10 && i != 4 && i != 5 && i != 6 ==> Smoothed(CentreObstacle)[i] == 9.9
    ensures Smoothed(CentreObstacle)[4] == Smoothed(CentreObstacle)[5] == Smoothed(CentreObstacle)[6] == 19.85 / 3.0
  {
  }

  /** The centre mean of the obstacle scan is the smoothed reading at index 4. */
  lemma CentreObstacleCenter()
    ensures CenterAverage(Smoothed(CentreObstacle)) == 19.85 / 3.0
  {
    var s := Smoothed(CentreObstacle);
    CentreObstacleSmoothed();
    assert CenterWindow(10) == (4, 5);
    assert s[4..5] == [19.85 / 3.0];
  }
}

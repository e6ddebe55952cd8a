/**
 Stages 3 and 4 of the follow-the-gap pipeline: the index the vehicle aims
 at (the middle of the gap) and the steering command that index maps to.
 Indices are spread linearly over a field of view of `Pi` radians centred on
 index totalpoints / 2, and the result is clamped to the actuator's range.
 */
module Steering {

  /** The value of pi the controller uses, taken as an exact constant. */
  const Pi: real := 3.14159
  /** Largest steering command the actuator accepts, in either direction. */
  const MaxSteeringAngle: real := 1.0

  function Abs(x: real): (r: real)
    ensures r >= 0.0 && (r == x || r == -x)
  {
    if x < 0.0 then -x else x
  }

  /**
   The middle index of the gap [start, end], rounded down (the source's `//`
   floors, and so does Dafny's `/` for a positive divisor).
   */
  function Midpoint(start: int, end: int): (mid: int)
    ensures 2 * mid <= start + end < 2 * mid + 2
    ensures start <= end ==> start <= mid <= end
    ensures start <= end ==> 0 <= (end - mid) - (mid - start) <= 1
  {
    (start + end) / 2
  }

  /** `x` limited to the interval [-bound, bound]. */
  function Clamp(x: real, bound: real): (r: real)
    requires bound >= 0.0
    ensures -bound <= r <= bound
    ensures -bound <= x <= bound ==> r == x
    ensures x > bound ==> r == bound
    ensures x < -bound ==> r == -bound
  {
    if x < -bound then -bound else if x > bound then bound else x
  }

  /** The angle, before clamping, at which index `bestpoint` is seen. */
  function RawAngle(bestpoint: int, totalpoints: int): real
    requires totalpoints > 0
  {
    var increment := Pi / totalpoints as real;
    (bestpoint as real - totalpoints as real / 2.0) * increment
  }

  /**
   The steering command for aiming at index `bestpoint` of a scan of
   `totalpoints` readings. The source divides by `totalpoints`, so an empty
   scan has no steering command.
   */
  function SteeringAngle(bestpoint: int, totalpoints: int): (angle: real)
    requires totalpoints > 0
    ensures -MaxSteeringAngle <= angle <= MaxSteeringAngle
    ensures angle < 0.0 <==> (bestpoint as real) < totalpoints as real / 2.0
    ensures angle == 0.0 <==> (bestpoint as real) == totalpoints as real / 2.0
    ensures angle > 0.0 <==> (bestpoint as real) > totalpoints as real / 2.0
  {
    RawAngleSign(bestpoint, totalpoints);
    Clamp(RawAngle(bestpoint, totalpoints), MaxSteeringAngle)
  }

  /** The unclamped angle has the sign of the offset from the centre index. */
  lemma RawAngleSign(bestpoint: int, totalpoints: int)
    requires totalpoints > 0
    ensures RawAngle(bestpoint, totalpoints) < 0.0 <==> (bestpoint as real) < totalpoints as real / 2.0
    ensures RawAngle(bestpoint, totalpoints) == 0.0 <==> (bestpoint as real) == totalpoints as real / 2.0
  {
  }

  /** Aiming further along the scan never steers further the other way. */
  lemma SteeringMonotone(b1: int, b2: int, totalpoints: int)
    requires totalpoints > 0 && b1 <= b2
    ensures SteeringAngle(b1, totalpoints) <= SteeringAngle(b2, totalpoints)
  {
    var increment := Pi / totalpoints as real;
    assert increment > 0.0;
    var o1 := b1 as real - totalpoints as real / 2.0;
    var o2 := b2 as real - totalpoints as real / 2.0;
    assert (o2 - o1) * increment >= 0.0;
    assert RawAngle(b1, totalpoints) <= RawAngle(b2, totalpoints);
  }

  /** Indices mirrored about the centre give opposite steering commands. */
  lemma SteeringSymmetric(b: int, totalpoints: int)
    requires totalpoints > 0
    ensures SteeringAngle(totalpoints - b, totalpoints) == -SteeringAngle(b, totalpoints)
  {
  }

  /**
   The command is never exactly straight when the scan has an odd number of
   readings: no integer index sits at the centre totalpoints / 2.
   */
  lemma OddScanNeverStraight(bestpoint: int, totalpoints: int)
    requires totalpoints > 0 && totalpoints % 2 == 1
    ensures SteeringAngle(bestpoint, totalpoints) != 0.0
  {
  }
}

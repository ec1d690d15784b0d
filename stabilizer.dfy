/**
 * The drone stabilizer: when roll or pitch exceeds `maxTiltAngle`, a torque
 * of magnitude `stabilizationStrength` is applied about each axis that is
 * tilted too far, in the direction of `Mathf.Sign` of that angle.
 */
module Stabilizer {
  import opened Wrappers
  import opened Vectors

  /** The public fields `stabilizationStrength`, `maxTiltAngle`, `correctionSpeed`. */
  datatype Settings = Settings(stabilizationStrength: real, maxTiltAngle: real, correctionSpeed: real)

  /** Their initial values. */
  const DefaultSettings: Settings := Settings(5.0, 45.0, 3.0)

  /** Maps an Euler angle above 180 degrees down by one turn. */
  function NormalizeAngle(angle: real): real {
    if angle > 180.0 then angle - 360.0 else angle
  }

  /** `Mathf.Abs` */
  function Abs(f: real): (r: real)
    ensures r >= 0.0 && (r == f || r == -f)
  {
    if f < 0.0 then -f else f
  }

  /** `Mathf.Sign`: 1 for zero and positive values, -1 for negative ones. */
  function Sign(f: real): (r: real)
    ensures (r == 1.0 <==> f >= 0.0) && (r == -1.0 <==> f < 0.0)
  {
    if f >= 0.0 then 1.0 else -1.0
  }

  /** The test in Update: the drone is tilted beyond the allowed angle about x or z. */
  predicate Tilted(roll: real, pitch: real, s: Settings) {
    Abs(roll) > s.maxTiltAngle || Abs(pitch) > s.maxTiltAngle
  }

  /** `stabilizationTorque` as StabilizeDrone builds it, starting from `Vector3.zero`. */
  function StabilizationTorque(roll: real, pitch: real, s: Settings): Vec3 {
    var t0 := Zero;
    var t1 := if Abs(roll) > s.maxTiltAngle then t0.(x := Sign(roll) * s.stabilizationStrength) else t0;
    if Abs(pitch) > s.maxTiltAngle then t1.(z := Sign(pitch) * s.stabilizationStrength) else t1
  }

  /** One frame of Update: the torque handed to `AddTorque`, or None when StabilizeDrone is not called. */
  function Update(euler: Vec3, s: Settings): Option<Vec3> {
    var roll := NormalizeAngle(euler.x);
    var pitch := NormalizeAngle(euler.z);
    if Tilted(roll, pitch, s) then Some(StabilizationTorque(roll, pitch, s)) else None
  }

  /** On the Euler angles Unity reports, in [0, 360), the result is in (-180, 180] and one turn at most away. */
  lemma NormalizeAngleRange(a: real)
    requires 0.0 <= a < 360.0
    ensures -180.0 < NormalizeAngle(a) <= 180.0
    ensures NormalizeAngle(a) == a || NormalizeAngle(a) == a - 360.0
  {
  }

  /** The result is the one angle in (-180, 180] that differs from `a` by whole turns. */
  lemma NormalizeAngleCanonical(a: real, b: real, turns: int)
    requires 0.0 <= a < 360.0 && -180.0 < b <= 180.0
    requires a == b + 360.0 * turns as real
    ensures NormalizeAngle(a) == b
  {
    assert turns == 0 || turns == 1;
  }

  /** Angles already in (-180, 180] are left as they are, so normalizing twice is normalizing once. */
  lemma NormalizeAngleIdempotent(a: real)
    requires 0.0 <= a < 360.0
    ensures NormalizeAngle(NormalizeAngle(a)) == NormalizeAngle(a)
  {
    NormalizeAngleRange(a);
  }

  /**
   * The torque never turns about y, and about x (and z) it is
   * `Sign(roll) * stabilizationStrength` (`Sign(pitch) * ...`) exactly when
   * roll (pitch) exceeds the limit, 0 otherwise; so each component is 0 or
   * plus or minus the strength.
   */
  lemma TorqueComponents(roll: real, pitch: real, s: Settings)
    ensures var t := StabilizationTorque(roll, pitch, s);
            var k := s.stabilizationStrength;
            t.y == 0.0 &&
            t.x == (if Abs(roll) > s.maxTiltAngle then Sign(roll) * k else 0.0) &&
            t.z == (if Abs(pitch) > s.maxTiltAngle then Sign(pitch) * k else 0.0) &&
            (t.x == 0.0 || t.x == k || t.x == -k) &&
            (t.z == 0.0 || t.z == k || t.z == -k)
  {
  }

  /** For a positive strength, a torque component is positive exactly when its angle exceeds the limit and is not negative, and negative exactly when it exceeds the limit and is negative. */
  lemma TorqueDirection(roll: real, pitch: real, s: Settings)
    requires s.stabilizationStrength > 0.0
    ensures var t := StabilizationTorque(roll, pitch, s);
            (t.x > 0.0 <==> Abs(roll) > s.maxTiltAngle && roll >= 0.0) &&
            (t.x < 0.0 <==> Abs(roll) > s.maxTiltAngle && roll < 0.0) &&
            (t.z > 0.0 <==> Abs(pitch) > s.maxTiltAngle && pitch >= 0.0) &&
            (t.z < 0.0 <==> Abs(pitch) > s.maxTiltAngle && pitch < 0.0)
  {
  }

  /** With a non-zero strength, Update applies a torque exactly when the torque it would compute is not zero. */
  lemma UpdateAppliesNonZeroTorque(euler: Vec3, s: Settings)
    requires s.stabilizationStrength != 0.0
    ensures var roll, pitch := NormalizeAngle(euler.x), NormalizeAngle(euler.z);
            (Update(euler, s).Some? <==> StabilizationTorque(roll, pitch, s) != Zero) &&
            (Update(euler, s).Some? ==> Update(euler, s).value == StabilizationTorque(roll, pitch, s))
  {
    var roll, pitch := NormalizeAngle(euler.x), NormalizeAngle(euler.z);
    var t := StabilizationTorque(roll, pitch, s);
    if Abs(roll) > s.maxTiltAngle {
      assert t.x == Sign(roll) * s.stabilizationStrength != 0.0;
    } else if Abs(pitch) > s.maxTiltAngle {
      assert t.z == Sign(pitch) * s.stabilizationStrength != 0.0;
    }
  }

  /**
   * With the initial settings (limit 45 degrees, strength 5): a roll reported
   * as 300 degrees is -60 and is pushed back with torque -5 about x, while a
   * roll of 40 and a pitch of 350 (-10) stay within the limit.
   */
  lemma DefaultSettingsExample()
    ensures Update(Vec3(300.0, 0.0, 10.0), DefaultSettings) == Some(Vec3(-5.0, 0.0, 0.0))
    ensures Update(Vec3(40.0, 0.0, 350.0), DefaultSettings) == None
  {
  }
}

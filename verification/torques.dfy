/**
 The torque balance about the hull: the side force acting at the centre of
 effort tries to heel the canoe over, the buoyancy of the outrigger float
 acting at the end of its arm rights it, and the canoe is judged safe only
 when the righting torque strictly exceeds the heeling torque.
 */
module Torques {

  /** Density of water, kg per cubic metre. */
  const WaterDensity: real := 1000.0

  /** Gravitational acceleration, metres per second squared. */
  const Gravity: real := 9.8

  /** Torque of the side force about the hull, acting at the centre-of-effort height. */
  function HeelingTorque(sideForce: real, coeHeight: real): (t: real)
    ensures 0.0 <= sideForce && 0.0 <= coeHeight ==> 0.0 <= t
    ensures sideForce == 0.0 ==> t == 0.0
  {
    sideForce * coeHeight
  }

  /** Weight of the water the float displaces when fully submerged. */
  function BuoyancyForce(floatVolume: real): (b: real)
    ensures 0.0 < floatVolume ==> 0.0 < b
    ensures floatVolume >= 0.01 ==> b >= 98.0
  {
    floatVolume * WaterDensity * Gravity
  }

  /** Torque of the float's buoyancy about the hull, acting at the outrigger's distance. */
  function RightingTorque(floatVolume: real, outriggerDist: real): (t: real)
    ensures 0.0 < floatVolume && 0.0 < outriggerDist ==> 0.0 < t
    ensures floatVolume >= 0.01 && outriggerDist >= 1.0 ==> t >= 98.0
  {
    var b := BuoyancyForce(floatVolume);
    MinimumRighting(b, outriggerDist);
    b * outriggerDist
  }

  /** A lever of at least one metre carrying at least 98 newtons gives at least 98 newton-metres. */
  lemma MinimumRighting(force: real, arm: real)
    ensures 0.0 < force && 0.0 < arm ==> 0.0 < force * arm
    ensures force >= 98.0 && arm >= 1.0 ==> force * arm >= 98.0
  {
    if force >= 98.0 && arm >= 1.0 {
      assert force * arm - force == force * (arm - 1.0);
      assert force * (arm - 1.0) >= 0.0;
    }
  }

  /** A larger side force at the same height never gives a smaller heeling torque. */
  lemma HeelingMonotone(s1: real, s2: real, coeHeight: real)
    requires s1 <= s2 && 0.0 <= coeHeight
    ensures HeelingTorque(s1, coeHeight) <= HeelingTorque(s2, coeHeight)
  {
    assert s2 * coeHeight - s1 * coeHeight == (s2 - s1) * coeHeight;
  }

  /** The safety verdict: righting must strictly beat heeling, so safety needs a positive margin. */
  predicate IsSafe(rightingTorque: real, heelingTorque: real): (safe: bool)
    ensures safe <==> 0.0 < rightingTorque - heelingTorque
    ensures rightingTorque == heelingTorque ==> !safe
  {
    rightingTorque > heelingTorque
  }

  /** A dead heat is reported as unsafe. */
  lemma TieIsUnsafe(torque: real)
    ensures !IsSafe(torque, torque)
  {
  }

  /** A larger float on the same arm never turns a safe canoe unsafe. */
  lemma LargerFloatStaysSafe(v1: real, v2: real, outriggerDist: real, heeling: real)
    requires 0.0 < v1 <= v2 && 0.0 < outriggerDist
    requires IsSafe(RightingTorque(v1, outriggerDist), heeling)
    ensures IsSafe(RightingTorque(v2, outriggerDist), heeling)
  {
    assert BuoyancyForce(v2) - BuoyancyForce(v1) == (v2 - v1) * WaterDensity * Gravity;
    assert BuoyancyForce(v2) * outriggerDist - BuoyancyForce(v1) * outriggerDist
      == (BuoyancyForce(v2) - BuoyancyForce(v1)) * outriggerDist;
  }

  /** Lengthening the outrigger never turns a safe canoe unsafe. */
  lemma LongerArmStaysSafe(floatVolume: real, d1: real, d2: real, heeling: real)
    requires 0.0 < floatVolume && 0.0 < d1 <= d2
    requires IsSafe(RightingTorque(floatVolume, d1), heeling)
    ensures IsSafe(RightingTorque(floatVolume, d2), heeling)
  {
    var b := BuoyancyForce(floatVolume);
    assert b * d2 - b * d1 == b * (d2 - d1);
    assert b * (d2 - d1) >= 0.0;
  }
}

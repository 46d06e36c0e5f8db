/**
 One evaluation of the canoe: the selections and slider values go in, the
 centre-of-effort height, the forces, the two torques and the safety
 verdict come out. The evaluation is a pure function of its input.

 The angle of attack arrives in whole degrees; the sine and cosine of that
 angle arrive alongside it, computed by the caller, and `TrigConsistent`
 states what the model assumes of them.
 */
module Simulator {
  import opened Coefficients
  import opened Forces
  import opened Torques

  /** Everything the sidebar hands to the physics. */
  datatype Input = Input(
    shapeLabel: string,
    materialLabel: string,
    sailArea: real,
    windSpeed: real,
    angleDeg: int,
    sinAngle: real,
    cosAngle: real,
    hullDensity: int,
    hullLength: real,
    outriggerDist: real,
    floatVolume: real)

  /** Everything the physics hands back to the report. */
  datatype SimulationResult = SimulationResult(
    coeHeight: real,
    rawWindForce: real,
    forwardForce: real,
    sideForce: real,
    heelingTorque: real,
    rightingTorque: real,
    isSafe: bool)

  /**
   What the model assumes of the caller's sine and cosine: both lie in
   [0, 1] on the slider's range of 0 to 90 degrees, and the two ends of the
   range take their exact values.
   */
  predicate TrigConsistent(angleDeg: int, sinA: real, cosA: real) {
    && 0.0 <= sinA <= 1.0
    && 0.0 <= cosA <= 1.0
    && (angleDeg == 0 ==> sinA == 0.0 && cosA == 1.0)
    && (angleDeg == 90 ==> sinA == 1.0 && cosA == 0.0)
  }

  /** The hull densities the hull-material dropdown offers, kg per cubic metre. */
  predicate OfferedHullDensity(d: int) {
    d == 150 || d == 450 || d == 550 || d == 600 || d == 1500
  }

  /**
   The ranges the sidebar's sliders and number inputs allow. Within them the
   sail, the float and its arm are all strictly positive and the wind and
   both trigonometric values are non-negative.
   */
  predicate ValidInput(i: Input): (valid: bool)
    ensures valid ==>
      && 0.0 < i.sailArea && 0.0 < i.floatVolume && 0.0 < i.outriggerDist
      && 0.0 <= i.windSpeed && 0.0 <= i.sinAngle && 0.0 <= i.cosAngle
  {
    && 2.0 <= i.sailArea <= 10.0
    && 0.0 <= i.windSpeed <= 20.0
    && 0 <= i.angleDeg <= 90
    && TrigConsistent(i.angleDeg, i.sinAngle, i.cosAngle)
    && OfferedHullDensity(i.hullDensity)
    && 3.0 <= i.hullLength <= 10.0
    && 1.0 <= i.outriggerDist <= 4.0
    && 0.01 <= i.floatVolume <= 0.5
  }

  /** The whole pipeline: coefficients, centre of effort, forces, torques, verdict. */
  function Evaluate(i: Input): (r: SimulationResult)
    ensures r.isSafe <==> r.heelingTorque < r.rightingTorque
    ensures ValidInput(i) ==>
      && 0.2 * i.sailArea <= r.coeHeight <= 0.3 * i.sailArea
      && 0.0 <= r.rawWindForce
      && 0.0 <= r.forwardForce
      && 0.0 <= r.sideForce
      && 0.0 <= r.heelingTorque
      && 98.0 <= r.rightingTorque
  {
    var c := Resolve(i.shapeLabel, i.materialLabel);
    var coe := CoeHeight(i.sailArea, c.leverArmCoeff);
    var raw := RawWindForce(i.sailArea, i.windSpeed, c.materialEfficiency);
    var split := Split(raw, i.sinAngle, i.cosAngle, c.shapeLiftEff, c.shapeDragCoeff);
    var heeling := HeelingTorque(split.side, coe);
    var righting := RightingTorque(i.floatVolume, i.outriggerDist);
    SimulationResult(coe, raw, split.forward, split.side, heeling, righting, IsSafe(righting, heeling))
  }

  /** Hull density and hull length are read but never used: changing them changes nothing. */
  lemma HullParametersUnused(i: Input, density: int, length: real)
    ensures Evaluate(i.(hullDensity := density, hullLength := length)) == Evaluate(i)
  {
  }

  /** In a calm there is no force and no heeling, so every canoe in range is safe. */
  lemma CalmIsSafe(i: Input)
    requires ValidInput(i) && i.windSpeed == 0.0
    ensures var r := Evaluate(i);
      r.rawWindForce == 0.0 && r.forwardForce == 0.0 && r.sideForce == 0.0
      && r.heelingTorque == 0.0 && r.isSafe
  {
  }

  /** Wind along the sail (0 degrees) is pure drag: no thrust, and the whole force times drag pushes sideways. */
  lemma HeadOnAngle(i: Input)
    requires ValidInput(i) && i.angleDeg == 0
    ensures var r := Evaluate(i);
      r.forwardForce == 0.0
      && r.sideForce == r.rawWindForce * Resolve(i.shapeLabel, i.materialLabel).shapeDragCoeff
  {
  }

  /** Wind across the sail (90 degrees) is pure lift: no side force, no heeling, always safe. */
  lemma BeamAngle(i: Input)
    requires ValidInput(i) && i.angleDeg == 90
    ensures var r := Evaluate(i);
      r.sideForce == 0.0 && r.heelingTorque == 0.0 && r.isSafe
      && r.forwardForce == r.rawWindForce * Resolve(i.shapeLabel, i.materialLabel).shapeLiftEff
  {
  }

  /** Easing the wind never makes a safe canoe unsafe. */
  lemma LighterWindStaysSafe(i: Input, w: real)
    requires ValidInput(i) && 0.0 <= w <= i.windSpeed
    requires Evaluate(i).isSafe
    ensures Evaluate(i.(windSpeed := w)).isSafe
  {
    var c := Resolve(i.shapeLabel, i.materialLabel);
    var coe := CoeHeight(i.sailArea, c.leverArmCoeff);
    var raw1 := RawWindForce(i.sailArea, w, c.materialEfficiency);
    var raw2 := RawWindForce(i.sailArea, i.windSpeed, c.materialEfficiency);
    if w < i.windSpeed {
      WindForceStrictlyIncreasing(i.sailArea, c.materialEfficiency, w, i.windSpeed);
    }
    SideForceMonotone(raw1, raw2, i.sinAngle, i.cosAngle, c.shapeLiftEff, c.shapeDragCoeff);
    HeelingMonotone(
      Split(raw1, i.sinAngle, i.cosAngle, c.shapeLiftEff, c.shapeDragCoeff).side,
      Split(raw2, i.sinAngle, i.cosAngle, c.shapeLiftEff, c.shapeDragCoeff).side,
      coe);
  }

  /** Lengthening the outrigger arm never makes a safe canoe unsafe. */
  lemma LongerOutriggerStaysSafe(i: Input, d: real)
    requires ValidInput(i) && i.outriggerDist <= d
    requires Evaluate(i).isSafe
    ensures Evaluate(i.(outriggerDist := d)).isSafe
  {
    LongerArmStaysSafe(i.floatVolume, i.outriggerDist, d, Evaluate(i).heelingTorque);
  }

  /** On the square sail, whose lift and drag multipliers are both 1, the split keeps the force's magnitude. */
  lemma SquareSailKeepsMagnitude(i: Input)
    requires ShapeOf(i.shapeLabel) == Square
    requires Squared(i.sinAngle) + Squared(i.cosAngle) == 1.0
    ensures var r := Evaluate(i);
      Squared(r.forwardForce) + Squared(r.sideForce) == Squared(r.rawWindForce)
  {
    var r := Evaluate(i);
    UnitSplitPreservesMagnitude(r.rawWindForce, i.sinAngle, i.cosAngle);
  }

  /** Enlarging the float never makes a safe canoe unsafe. */
  lemma LargerFloatStaysSafe(i: Input, v: real)
    requires ValidInput(i) && i.floatVolume <= v
    requires Evaluate(i).isSafe
    ensures Evaluate(i.(floatVolume := v)).isSafe
  {
    Torques.LargerFloatStaysSafe(i.floatVolume, v, i.outriggerDist, Evaluate(i).heelingTorque);
  }
}

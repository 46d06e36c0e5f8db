/**
 The aerodynamic stage: the height at which the sail's force acts, the raw
 wind force from the dynamic-pressure formula, and its split into a forward
 (thrust) and a side (heeling) component by the angle of attack.

 Trigonometry is not computed here: the caller supplies the sine and the
 cosine of the angle of attack as plain reals.
 */
module Forces {

  /** Density of air, kg per cubic metre. */
  const AirDensity: real := 1.225

  /** Assumed base width of every sail, metres; the sail's height is its area over this width. */
  const BaseWidth: real := 2.0

  /** The two components of the sail force. */
  datatype ForceSplit = ForceSplit(forward: real, side: real)

  /** Height of the centre of effort: the sail's approximate height scaled by the shape's lever-arm coefficient. */
  function CoeHeight(sailArea: real, leverArm: real): (h: real)
    ensures 0.0 <= sailArea && 0.4 <= leverArm <= 0.6 ==> 0.2 * sailArea <= h <= 0.3 * sailArea
    ensures 0.0 < sailArea && 0.0 < leverArm ==> 0.0 < h
  {
    var heightApprox := sailArea / BaseWidth;
    LeverScaling(heightApprox, leverArm);
    heightApprox * leverArm
  }

  /** Scaling a non-negative height by a coefficient in [0.4, 0.6]. */
  lemma LeverScaling(height: real, leverArm: real)
    ensures 0.0 <= height && 0.4 <= leverArm <= 0.6 ==>
      0.4 * height <= height * leverArm <= 0.6 * height
    ensures 0.0 < height && 0.0 < leverArm ==> 0.0 < height * leverArm
  {
    if 0.0 <= height && 0.4 <= leverArm <= 0.6 {
      MulLeft(height, 0.4, leverArm);
      MulLeft(height, leverArm, 0.6);
    }
  }

  /** Multiplying by a non-negative factor keeps an order. */
  lemma MulLeft(k: real, a: real, b: real)
    requires 0.0 <= k && a <= b
    ensures k * a <= k * b
  {
    assert k * b - k * a == k * (b - a);
  }

  /** `x * x`, kept behind a name so that squares stay single terms in proofs. */
  function Squared(x: real): real {
    x * x
  }

  /** `a * b` as a single term, for the sign lemmas below. */
  function Product(a: real, b: real): real {
    a * b
  }

  /** Non-negative factors give a non-negative product. */
  lemma ProductNonNegative(a: real, b: real)
    requires 0.0 <= a && 0.0 <= b
    ensures 0.0 <= Product(a, b)
  {
  }

  /** Two factors of the same strict sign give a positive product. */
  lemma ProductPositive(a: real, b: real)
    requires (0.0 < a && 0.0 < b) || (a < 0.0 && b < 0.0)
    ensures 0.0 < Product(a, b)
  {
  }

  /** A square is never negative, is zero only at zero, and grows strictly on the non-negative reals. */
  lemma SquareFacts(x: real, y: real)
    ensures 0.0 <= Squared(x)
    ensures Squared(x) == 0.0 <==> x == 0.0
    ensures 0.0 <= x < y ==> Squared(x) < Squared(y)
  {
    if x != 0.0 {
      ProductPositive(x, x);
    }
    if 0.0 <= x < y {
      ProductPositive(y - x, y + x);
      assert Product(y - x, y + x) == Squared(y) - Squared(x);
    }
  }

  /** Dynamic-pressure wind force on the sail, scaled by the material's efficiency. */
  function RawWindForce(sailArea: real, windSpeed: real, efficiency: real): (f: real)
    ensures 0.0 <= sailArea && 0.0 <= efficiency ==> 0.0 <= f
    ensures windSpeed == 0.0 ==> f == 0.0
  {
    SquareFacts(windSpeed, windSpeed);
    0.5 * AirDensity * sailArea * Squared(windSpeed) * efficiency
  }

  /** On a sail with area and a material that catches wind, the force vanishes exactly in a calm. */
  lemma WindForceZeroIffCalm(sailArea: real, windSpeed: real, efficiency: real)
    requires 0.0 < sailArea && 0.0 < efficiency
    ensures RawWindForce(sailArea, windSpeed, efficiency) == 0.0 <==> windSpeed == 0.0
  {
    SquareFacts(windSpeed, windSpeed);
  }

  /** On non-negative speeds, a stronger wind always pushes strictly harder. */
  lemma WindForceStrictlyIncreasing(sailArea: real, efficiency: real, w1: real, w2: real)
    requires 0.0 < sailArea && 0.0 < efficiency
    requires 0.0 <= w1 < w2
    ensures RawWindForce(sailArea, w1, efficiency) < RawWindForce(sailArea, w2, efficiency)
  {
    SquareFacts(w1, w2);
    ProductPositive(0.5 * AirDensity * sailArea * efficiency, Squared(w2) - Squared(w1));
  }

  /** The force grows with the square of the speed: scaling the wind by `s` scales the force by `s * s`. */
  lemma WindForceQuadratic(sailArea: real, efficiency: real, windSpeed: real, s: real)
    ensures RawWindForce(sailArea, s * windSpeed, efficiency)
      == Squared(s) * RawWindForce(sailArea, windSpeed, efficiency)
  {
    assert Squared(s * windSpeed) == Squared(s) * Squared(windSpeed);
  }

  /**
   Splits the raw force by the angle of attack: the sine share, scaled by
   the shape's lift efficiency, drives the canoe forward; the cosine share,
   scaled by its drag coefficient, pushes it sideways.
   */
  function Split(raw: real, sinA: real, cosA: real, liftEff: real, dragCoeff: real): (v: ForceSplit)
    ensures 0.0 <= raw && 0.0 <= sinA && 0.0 <= liftEff ==> 0.0 <= v.forward
    ensures 0.0 <= raw && 0.0 <= cosA && 0.0 <= dragCoeff ==> 0.0 <= v.side
    ensures sinA == 0.0 || raw == 0.0 ==> v.forward == 0.0
    ensures cosA == 0.0 || raw == 0.0 ==> v.side == 0.0
  {
    ForceSplit(raw * sinA * liftEff, raw * cosA * dragCoeff)
  }

  /**
   The split is not a rotation: the squared components add up to the squared
   raw force weighted by the squared lift and drag multipliers.
   */
  lemma SplitMagnitude(raw: real, sinA: real, cosA: real, liftEff: real, dragCoeff: real)
    ensures var v := Split(raw, sinA, cosA, liftEff, dragCoeff);
      Squared(v.forward) + Squared(v.side)
      == Squared(raw) * (Squared(sinA) * Squared(liftEff) + Squared(cosA) * Squared(dragCoeff))
  {
    assert Squared(raw * sinA * liftEff) == Squared(raw) * Squared(sinA) * Squared(liftEff);
    assert Squared(raw * cosA * dragCoeff) == Squared(raw) * Squared(cosA) * Squared(dragCoeff);
  }

  /** With unit lift and drag multipliers (the square sail) the split preserves the force's magnitude. */
  lemma UnitSplitPreservesMagnitude(raw: real, sinA: real, cosA: real)
    requires Squared(sinA) + Squared(cosA) == 1.0
    ensures var v := Split(raw, sinA, cosA, 1.0, 1.0);
      Squared(v.forward) + Squared(v.side) == Squared(raw)
  {
    SplitMagnitude(raw, sinA, cosA, 1.0, 1.0);
  }

  /** A larger raw force never gives a smaller side force. */
  lemma SideForceMonotone(r1: real, r2: real, sinA: real, cosA: real, liftEff: real, dragCoeff: real)
    requires r1 <= r2 && 0.0 <= cosA && 0.0 <= dragCoeff
    ensures Split(r1, sinA, cosA, liftEff, dragCoeff).side <= Split(r2, sinA, cosA, liftEff, dragCoeff).side
  {
    ProductNonNegative(r2 - r1, cosA);
    ProductNonNegative(Product(r2 - r1, cosA), dragCoeff);
  }
}

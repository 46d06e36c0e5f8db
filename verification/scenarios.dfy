/**
 Worked evaluations on concrete settings of the sidebar, computed in full
 through to the verdict. Each takes the two dropdown labels as parameters
 that resolve to the named shape and material, which the offered labels do
 (`ShapeLabelRoundTrip`, `MaterialLabelRoundTrip`). Where the angle is
 neither 0 nor 90 degrees its sine is left as a parameter `s`, since the
 model takes trigonometric values from its caller; 60 degrees has cosine 1/2.
 */
module Scenarios {
  import opened Coefficients
  import opened Simulator

  /**
   A cotton sail of 5 m² in a 10 m/s wind at 60 degrees, float 0.05 m³ on a
   2 m arm: 306.25 N of wind, and 980 N·m of righting against 122.5 N·m of
   heeling for the inverted triangle.
   */
  lemma CottonTriangleIsSafe(shapeLabel: string, materialLabel: string, s: real, hullLength: real)
    requires ShapeOf(shapeLabel) == InvertedTriangle && MaterialOf(materialLabel) == CottonCanvas
    requires 0.0 <= s <= 1.0 && 3.0 <= hullLength <= 10.0
    ensures var i := Input(shapeLabel, materialLabel, 5.0, 10.0, 60, s, 0.5, 150, hullLength, 2.0, 0.05);
      ValidInput(i)
      && Evaluate(i) == SimulationResult(1.0, 306.25, 367.5 * s, 122.5, 122.5, 980.0, true)
  {
  }

  /** The same setting with the tall rectangular sail: a higher centre and more drag, 252.65625 N·m of heeling, still safe. */
  lemma CottonRectangleIsSafe(shapeLabel: string, materialLabel: string, s: real, hullLength: real)
    requires ShapeOf(shapeLabel) == Rectangle && MaterialOf(materialLabel) == CottonCanvas
    requires 0.0 <= s <= 1.0 && 3.0 <= hullLength <= 10.0
    ensures var i := Input(shapeLabel, materialLabel, 5.0, 10.0, 60, s, 0.5, 150, hullLength, 2.0, 0.05);
      ValidInput(i)
      && Evaluate(i) == SimulationResult(1.5, 306.25, 275.625 * s, 168.4375, 252.65625, 980.0, true)
  {
  }

  /**
   A square nylon sail at full size in the strongest wind, at 90 degrees, on
   the smallest float and arm: all 2817.5 N of wind is thrust, nothing
   heels, and 98 N·m of righting is enough.
   */
  lemma NylonBeamIsSafe(shapeLabel: string, materialLabel: string, hullLength: real)
    requires ShapeOf(shapeLabel) == Square && MaterialOf(materialLabel) == ModernNylon
    requires 3.0 <= hullLength <= 10.0
    ensures var i := Input(shapeLabel, materialLabel, 10.0, 20.0, 90, 1.0, 0.0, 1500, hullLength, 1.0, 0.01);
      ValidInput(i)
      && Evaluate(i) == SimulationResult(2.5, 2817.5, 2817.5, 0.0, 0.0, 98.0, true)
  {
  }

  /**
   A square cotton sail of 2 m² head-on (0 degrees) to a 20 m/s wind, float
   0.01 m³ on a 2.5 m arm: heeling and righting are both exactly 245 N·m,
   and the tie is reported unsafe.
   */
  lemma TieIsReportedUnsafe(shapeLabel: string, materialLabel: string, hullLength: real)
    requires ShapeOf(shapeLabel) == Square && MaterialOf(materialLabel) == CottonCanvas
    requires 3.0 <= hullLength <= 10.0
    ensures var i := Input(shapeLabel, materialLabel, 2.0, 20.0, 0, 0.0, 1.0, 450, hullLength, 2.5, 0.01);
      ValidInput(i)
      && Evaluate(i).heelingTorque == 245.0
      && Evaluate(i).rightingTorque == 245.0
      && !Evaluate(i).isSafe
  {
  }
}

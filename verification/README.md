# Outrigger canoe stability: physics model

This project models the physics engine of the outrigger-canoe stability simulator, `app.py`. The simulator has a sidebar with these inputs:

- a sail shape and a sail material, both chosen from dropdowns;
- sail area, wind speed and angle of attack;
- hull material, hull length, outrigger distance and float volume.

From those inputs it computes, in a straight line:

1. **Coefficient resolution.** It checks, in order, whether a keyword occurs in the selected label. The material check gives the material's wind-catching efficiency (pandanus 0.85, cotton 1.0, otherwise nylon 1.15). The shape check gives the lever-arm, lift and drag multipliers (inverted triangle, square, rectangle, otherwise right triangle).
2. **Centre of effort.** The height is (area / 2 m) × lever-arm coefficient.
3. **Wind force.** The raw force is ½ · 1.225 · A · w² · efficiency.
4. **Split.** The raw force is divided into a forward component, raw · sin(angle) · lift, and a side component, raw · cos(angle) · drag.
5. **Torques.** Heeling is side force × CoE height. Righting is buoyancy (volume · 1000 · 9.8) × outrigger distance.
6. **Verdict.** The canoe is safe only when righting *strictly* exceeds heeling.

The modules follow these stages:

- `Text` holds Python's substring test `needle in haystack`.
- `Coefficients` holds the dropdown labels, the two dispatch chains and the coefficient tables.
- `Forces` holds the CoE height, the wind force and the split.
- `Torques` holds the two torques and the verdict.
- `Simulator` holds the input record and `Evaluate`, the whole pipeline as one pure total function.
- `Scenarios` holds worked evaluations on concrete settings.

All quantities are Dafny `real`s. The angle of attack arrives in whole degrees, and its sine and cosine come from the caller. `Simulator.TrigConsistent` states what is assumed about them:

- both lie in [0, 1];
- at 0° they are exactly (0, 1);
- at 90° they are exactly (1, 0).

The dispatch works on the label text itself. Any string is accepted, and a label without a known keyword falls through to the `else` value. There are therefore no error cases: `Evaluate` has no precondition.

## Model

| member | source | states |
|---|---|---|
| Text.Contains | app.py:73 | Python's `in` on strings: true exactly when the needle occurs at some position of the haystack (the empty needle occurs everywhere) |
| Coefficients.MaterialLabel | app.py:41 | the three material labels in offered order; a label opens with "林投葉" exactly when it is the pandanus one and with "棉布" exactly when it is the cotton one, so the nylon label opens with neither |
| Coefficients.ShapeLabel | app.py:34 | the four shape labels in offered order; a label opens with "倒三角形", "正方形" or "長方形" exactly when it is that shape's, so the right triangle's opens with none |
| Coefficients.MaterialOf | app.py:73-78 | the material chain in its priority order: pandanus exactly when "林投葉" occurs; cotton exactly when "林投葉" does not and "棉布" does; nylon exactly when neither occurs |
| Coefficients.ShapeOf | app.py:84-99 | the shape chain in its priority order: inverted triangle iff "倒三角形" occurs, square iff not that and "正方形", rectangle iff neither and "長方形", right triangle iff none of the three |
| Coefficients.MaterialLabelRoundTrip | app.py:41 | each of the three material labels on offer selects its own material |
| Coefficients.ShapeLabelRoundTrip | app.py:34 | each of the four shape labels on offer selects its own shape; "直角三角形 (現代帆)" gets there through the fallback |
| Coefficients.Efficiency | app.py:74-78 | efficiencies lie in [0.85, 1.15]; cotton is the 1.0 reference, only pandanus is below it and only nylon above it |
| Coefficients.Shape | app.py:85-99 | lever arms lie in [0.4, 0.6], lift in [0.9, 1.3], drag in [0.6, 1.1]; the square alone has unit lift and drag; the two triangles lift more than they drag; the rectangle alone drags more than it lifts |
| Coefficients.Resolve | app.py:73-99 | for any pair of labels, each branch of both chains: pandanus 0.85, cotton (no pandanus keyword) 1.0, otherwise nylon 1.15; inverted triangle (0.4, 1.2, 0.8), square (0.5, 1.0, 1.0), rectangle (0.6, 0.9, 1.1), otherwise right triangle (0.45, 1.3, 0.6), each under the keyword tests of its place in the chain; hence every coefficient lies in its table range |
| Coefficients.ResolveOfferedLabels | app.py:73-99 | each pair of offered labels resolves to exactly the table row of its shape and material |
| Coefficients.EfficiencyOrdered | app.py:74-78 | pandanus catches less wind than cotton, and cotton less than nylon |
| Coefficients.InvertedTriangleLowestLever | app.py:85-97 | the inverted triangle has the strictly lowest centre of effort of the four shapes, but the right triangle's lever × drag product is lower than the inverted triangle's |
| Forces.CoeHeight | app.py:81-101 | for non-negative area and a lever coefficient in [0.4, 0.6], the height lies between 0.2 and 0.3 times the area; it is positive for positive area and coefficient |
| Forces.SquareFacts | app.py:104 | the square of the wind speed is non-negative, zero only in a calm, and strictly increasing on non-negative speeds |
| Forces.RawWindForce | app.py:104 | the wind force is non-negative for non-negative area and efficiency, and zero in a calm |
| Forces.WindForceZeroIffCalm | app.py:104 | for a sail with area and a positive efficiency, the force is zero if and only if the wind speed is zero |
| Forces.WindForceStrictlyIncreasing | app.py:104 | on non-negative speeds, a strictly stronger wind gives a strictly larger force |
| Forces.WindForceQuadratic | app.py:104 | scaling the wind speed by s scales the force by s² |
| Forces.Split | app.py:107-109 | non-negative raw force, trig values and multipliers give non-negative forward and side forces; a zero sine or a calm gives no thrust; a zero cosine or a calm gives no side force |
| Forces.SplitMagnitude | app.py:108-109 | the sum of the squared components is the squared raw force weighted by sin²·lift² + cos²·drag², so the split is not a rotation in general |
| Forces.UnitSplitPreservesMagnitude | app.py:108-109 | with lift and drag both 1 and sin² + cos² = 1, the components' squares add up to the raw force's square |
| Forces.SideForceMonotone | app.py:109 | a larger raw force never gives a smaller side force |
| Torques.HeelingTorque | app.py:112 | heeling is non-negative for non-negative side force and height, and zero when there is no side force |
| Torques.HeelingMonotone | app.py:112 | a larger side force at the same height never gives less heeling |
| Torques.BuoyancyForce | app.py:113 | buoyancy is positive for a positive float volume, and at least 98 N from 0.01 m³ upward |
| Torques.RightingTorque | app.py:113-114 | righting is positive for a positive volume and distance, and at least 98 N·m for a volume of at least 0.01 m³ on an arm of at least 1 m (the lower ends of the ranges at app.py:63-64) |
| Torques.IsSafe | app.py:141 | the verdict is safe exactly when the righting torque exceeds the heeling torque by a positive margin; equal torques are unsafe |
| Torques.TieIsUnsafe | app.py:141 | equal torques are reported unsafe |
| Torques.LargerFloatStaysSafe | app.py:113-114 | a canoe that is safe with one float volume is still safe with any larger float on the same arm, for the same heeling torque |
| Torques.LongerArmStaysSafe | app.py:114 | a canoe that is safe on one outrigger arm is still safe on any longer arm, for the same heeling torque |
| Simulator.ValidInput | app.py:45-64 | the ranges of the sail-area, wind and angle sliders, the offered hull densities, and the hull-length, arm and float-volume inputs; within them the sail area, float volume and arm are strictly positive and the wind speed, sine and cosine are non-negative |
| Simulator.Evaluate | app.py:68-141 | the verdict is safe exactly when heeling is strictly below righting; on inputs in the sidebar's ranges, the CoE height lies in [0.2A, 0.3A], every force and the heeling torque are non-negative, and righting is at least 98 N·m |
| Simulator.HullParametersUnused | app.py:60-62 | changing the hull density or hull length changes no output at all |
| Simulator.CalmIsSafe | app.py:104-141 | in a calm, the raw, forward and side forces and the heeling torque are all zero, and every canoe in range is safe |
| Simulator.HeadOnAngle | app.py:107-109 | at 0° there is no forward force, and the side force is the raw force times the shape's drag coefficient |
| Simulator.BeamAngle | app.py:107-112 | at 90° there is no side force and no heeling, so the canoe is safe; the forward force is the raw force times the lift efficiency |
| Simulator.LighterWindStaysSafe | app.py:104-141 | easing the wind never turns a safe verdict unsafe |
| Simulator.LargerFloatStaysSafe | app.py:113-141 | enlarging the float never turns a safe verdict unsafe |
| Simulator.LongerOutriggerStaysSafe | app.py:114 | lengthening the outrigger never turns a safe verdict unsafe |
| Simulator.SquareSailKeepsMagnitude | app.py:88-109 | for any label resolving to the square sail, with sin² + cos² = 1, the forward and side forces recompose to the raw force's magnitude |
| Scenarios.CottonTriangleIsSafe | app.py:68-114 | inverted-triangle cotton sail, 5 m², 10 m/s, 60°, 0.05 m³ on 2 m: CoE 1 m, 306.25 N of wind, 122.5 N of side force, 122.5 N·m of heeling against 980 N·m of righting, safe |
| Scenarios.CottonRectangleIsSafe | app.py:68-114 | the same setting with the rectangle: CoE 1.5 m, 168.4375 N of side force, 252.65625 N·m of heeling against 980 N·m, safe |
| Scenarios.NylonBeamIsSafe | app.py:68-114 | square nylon sail, 10 m², 20 m/s, 90°, 0.01 m³ on 1 m: all 2817.5 N of wind is thrust, heeling is 0, righting 98 N·m, safe |
| Scenarios.TieIsReportedUnsafe | app.py:141 | square cotton sail, 2 m², 20 m/s, 0°, 0.01 m³ on 2.5 m: both torques are exactly 245 N·m, and the canoe is reported unsafe |

## Left out

- The Streamlit page, sidebar widgets, metrics and narrative text (app.py:19-64, 118-163) are user interface. The sidebar's ranges survive only as `Simulator.ValidInput`, which the input-range properties assume.
- Matplotlib fonts and plots (app.py:7-16, 123-136, 150-155) are presentation.
- The lookup of hull density in the `hull_options` dictionary is a widget's mapping. The model carries the density as an integer from the offered set, and `Simulator.HullParametersUnused` shows its value is irrelevant.
- `math.radians`, `math.sin` and `math.cos`: their values come from the caller, constrained only by `Simulator.TrigConsistent`. In IEEE-754 arithmetic cos(90°) is about 6·10⁻¹⁷, not 0. So `Simulator.BeamAngle` ("no side force at 90°") and `Scenarios.NylonBeamIsSafe` hold only under the exact endpoint values that predicate assumes.
- IEEE-754 rounding in general: every quantity is an exact real. The exact scenario values (for instance 252.65625 N·m) are therefore the mathematical results, not the floating-point ones.
- Scenarios.TieIsReportedUnsafe: the torques tie only in exact reals. In doubles 1.225 is stored slightly high, so the heeling torque comes out a hair above 245 N·m while the righting torque is exactly 245 N·m; app.py gives the same unsafe verdict, but because heeling is larger, not through the tie.
- Scenarios.CottonTriangleIsSafe: the forward force is stated as 367.5·s, where s is the caller's sin 60°. It is not a decimal value, because √3/2 is irrational and trig comes from the caller.
- Scenarios.CottonRectangleIsSafe: the forward force is likewise left as 275.625·s.
- app.py has no error cases: any label falls through to its `else` value, and the physics checks no range. `Simulator.Evaluate` is therefore total.

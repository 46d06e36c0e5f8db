/**
 Resolution of the two sail selections into physical coefficients.

 The simulator does not match its dropdown labels exactly: it asks, in a
 fixed order, whether a keyword occurs in the selected label and falls
 through to a default when none does. Both chains are modelled here as
 written, together with the dropdown labels themselves, so that each label
 can be shown to reach the branch it was meant for.
 */
module Coefficients {
  import opened Text

  datatype SailMaterial = WovenPandanus | CottonCanvas | ModernNylon

  datatype SailShape = InvertedTriangle | Square | Rectangle | RightTriangle

  /** The three shape-dependent multipliers of one sail shape. */
  datatype ShapeCoeffs = ShapeCoeffs(leverArm: real, liftEff: real, dragCoeff: real)

  /** Every coefficient the force and torque stages need. */
  datatype CoefficientSet = CoefficientSet(
    materialEfficiency: real,
    leverArmCoeff: real,
    shapeLiftEff: real,
    shapeDragCoeff: real)

  const PandanusKeyword: string := "林投葉"
  const CottonKeyword: string := "棉布"
  const InvertedTriangleKeyword: string := "倒三角形"
  const SquareKeyword: string := "正方形"
  const RectangleKeyword: string := "長方形"

  /**
   The material dropdown's option labels, in the order they are offered.
   Each opens with the keyword of its own material; the nylon label, reached
   through the fallback, opens with neither keyword.
   */
  function MaterialLabel(m: SailMaterial): (selection: string)
    ensures PandanusKeyword <= selection <==> m == WovenPandanus
    ensures CottonKeyword <= selection <==> m == CottonCanvas
  {
    var selection :=
      match m
      case WovenPandanus => "林投葉編織 (透氣/古法)"
      case CottonCanvas => "棉布帆 (傳統)"
      case ModernNylon => "現代尼龍帆 (不透氣/高效)";
    OpensDifferently(selection, PandanusKeyword);
    OpensDifferently(selection, CottonKeyword);
    selection
  }

  /**
   The shape dropdown's option labels, in the order they are offered. Each
   opens with the keyword of its own shape; the right triangle's label,
   reached through the fallback, opens with none of the three keywords.
   */
  function ShapeLabel(s: SailShape): (selection: string)
    ensures InvertedTriangleKeyword <= selection <==> s == InvertedTriangle
    ensures SquareKeyword <= selection <==> s == Square
    ensures RectangleKeyword <= selection <==> s == Rectangle
  {
    var selection :=
      match s
      case InvertedTriangle => "倒三角形 (南島蟹爪帆)"
      case Square => "正方形 (古歐洲帆)"
      case Rectangle => "長方形 (高瘦帆)"
      case RightTriangle => "直角三角形 (現代帆)";
    OpensDifferently(selection, InvertedTriangleKeyword);
    OpensDifferently(selection, SquareKeyword);
    OpensDifferently(selection, RectangleKeyword);
    selection
  }

  /** Ordered keyword dispatch on the material label; anything unrecognised is nylon. */
  function MaterialOf(selection: string): (m: SailMaterial)
    ensures m == WovenPandanus <==> Contains(selection, PandanusKeyword)
    ensures m == CottonCanvas <==> !Contains(selection, PandanusKeyword) && Contains(selection, CottonKeyword)
    ensures m == ModernNylon <==> !Contains(selection, PandanusKeyword) && !Contains(selection, CottonKeyword)
  {
    if Contains(selection, PandanusKeyword) then WovenPandanus
    else if Contains(selection, CottonKeyword) then CottonCanvas
    else ModernNylon
  }

  /** Ordered keyword dispatch on the shape label; anything unrecognised is the right triangle. */
  function ShapeOf(selection: string): (s: SailShape)
    ensures s == InvertedTriangle <==> Contains(selection, InvertedTriangleKeyword)
    ensures s == Square <==>
      !Contains(selection, InvertedTriangleKeyword) && Contains(selection, SquareKeyword)
    ensures s == Rectangle <==>
      !Contains(selection, InvertedTriangleKeyword) && !Contains(selection, SquareKeyword)
      && Contains(selection, RectangleKeyword)
    ensures s == RightTriangle <==>
      !Contains(selection, InvertedTriangleKeyword) && !Contains(selection, SquareKeyword)
      && !Contains(selection, RectangleKeyword)
  {
    if Contains(selection, InvertedTriangleKeyword) then InvertedTriangle
    else if Contains(selection, SquareKeyword) then Square
    else if Contains(selection, RectangleKeyword) then Rectangle
    else RightTriangle
  }

  /**
   Multiplier on the dynamic wind pressure: the denser the weave, the more
   wind it catches. Cotton is the reference; only breathable pandanus loses
   wind and only windproof nylon gains it.
   */
  function Efficiency(m: SailMaterial): (e: real)
    ensures 0.85 <= e <= 1.15
    ensures e < 1.0 <==> m == WovenPandanus
    ensures e == 1.0 <==> m == CottonCanvas
    ensures e > 1.0 <==> m == ModernNylon
  {
    match m
    case WovenPandanus => 0.85
    case CottonCanvas => 1.0
    case ModernNylon => 1.15
  }

  /**
   Lever-arm, lift and drag multipliers of each shape. The square is the
   neutral shape; the two triangles lift more than they drag, the rectangle
   drags more than it lifts.
   */
  function Shape(s: SailShape): (c: ShapeCoeffs)
    ensures 0.4 <= c.leverArm <= 0.6 && 0.9 <= c.liftEff <= 1.3 && 0.6 <= c.dragCoeff <= 1.1
    ensures c.liftEff == 1.0 && c.dragCoeff == 1.0 <==> s == Square
    ensures c.liftEff > c.dragCoeff <==> s == InvertedTriangle || s == RightTriangle
    ensures c.liftEff < c.dragCoeff <==> s == Rectangle
  {
    match s
    case InvertedTriangle => ShapeCoeffs(0.4, 1.2, 0.8)
    case Square => ShapeCoeffs(0.5, 1.0, 1.0)
    case Rectangle => ShapeCoeffs(0.6, 0.9, 1.1)
    case RightTriangle => ShapeCoeffs(0.45, 1.3, 0.6)
  }

  /** Both resolution chains together, on the raw labels. */
  function Resolve(shapeLabel: string, materialLabel: string): (c: CoefficientSet)
    ensures 0.85 <= c.materialEfficiency <= 1.15
    ensures 0.4 <= c.leverArmCoeff <= 0.6
    ensures 0.9 <= c.shapeLiftEff <= 1.3
    ensures 0.6 <= c.shapeDragCoeff <= 1.1
    ensures Contains(materialLabel, PandanusKeyword) ==> c.materialEfficiency == 0.85
    ensures !Contains(materialLabel, PandanusKeyword) && Contains(materialLabel, CottonKeyword) ==>
      c.materialEfficiency == 1.0
    ensures !Contains(materialLabel, PandanusKeyword) && !Contains(materialLabel, CottonKeyword) ==>
      c.materialEfficiency == 1.15
    ensures Contains(shapeLabel, InvertedTriangleKeyword) ==>
      c.leverArmCoeff == 0.4 && c.shapeLiftEff == 1.2 && c.shapeDragCoeff == 0.8
    ensures !Contains(shapeLabel, InvertedTriangleKeyword) && Contains(shapeLabel, SquareKeyword) ==>
      c.leverArmCoeff == 0.5 && c.shapeLiftEff == 1.0 && c.shapeDragCoeff == 1.0
    ensures (!Contains(shapeLabel, InvertedTriangleKeyword) && !Contains(shapeLabel, SquareKeyword)
      && Contains(shapeLabel, RectangleKeyword)) ==>
      c.leverArmCoeff == 0.6 && c.shapeLiftEff == 0.9 && c.shapeDragCoeff == 1.1
    ensures (!Contains(shapeLabel, InvertedTriangleKeyword) && !Contains(shapeLabel, SquareKeyword)
      && !Contains(shapeLabel, RectangleKeyword)) ==>
      c.leverArmCoeff == 0.45 && c.shapeLiftEff == 1.3 && c.shapeDragCoeff == 0.6
  {
    var sc := Shape(ShapeOf(shapeLabel));
    CoefficientSet(Efficiency(MaterialOf(materialLabel)), sc.leverArm, sc.liftEff, sc.dragCoeff)
  }

  /** Each material label on offer selects its own material. */
  lemma MaterialLabelRoundTrip(m: SailMaterial)
    ensures MaterialOf(MaterialLabel(m)) == m
  {
    var selection := MaterialLabel(m);
    match m
    case WovenPandanus =>
      PrefixContained(selection, PandanusKeyword);
    case CottonCanvas =>
      FirstCharAbsent(selection, PandanusKeyword);
      PrefixContained(selection, CottonKeyword);
    case ModernNylon =>
      FirstCharAbsent(selection, PandanusKeyword);
      FirstCharAbsent(selection, CottonKeyword);
  }

  /** Each shape label on offer selects its own shape; the right triangle is reached through the fallback. */
  lemma ShapeLabelRoundTrip(s: SailShape)
    ensures ShapeOf(ShapeLabel(s)) == s
  {
    var selection := ShapeLabel(s);
    match s
    case InvertedTriangle =>
      PrefixContained(selection, InvertedTriangleKeyword);
    case Square =>
      FirstCharAbsent(selection, InvertedTriangleKeyword);
      PrefixContained(selection, SquareKeyword);
    case Rectangle =>
      FirstCharAbsent(selection, InvertedTriangleKeyword);
      FirstCharAbsent(selection, SquareKeyword);
      PrefixContained(selection, RectangleKeyword);
    case RightTriangle =>
      FirstCharAbsent(selection, InvertedTriangleKeyword);
      FirstCharAbsent(selection, SquareKeyword);
      FirstCharAbsent(selection, RectangleKeyword);
  }

  /** The coefficients each pair of offered labels resolves to are exactly the table rows. */
  lemma ResolveOfferedLabels(s: SailShape, m: SailMaterial)
    ensures Resolve(ShapeLabel(s), MaterialLabel(m))
      == CoefficientSet(Efficiency(m), Shape(s).leverArm, Shape(s).liftEff, Shape(s).dragCoeff)
  {
    ShapeLabelRoundTrip(s);
    MaterialLabelRoundTrip(m);
  }

  /** Breathable pandanus catches the least wind and nylon the most. */
  lemma EfficiencyOrdered()
    ensures Efficiency(WovenPandanus) < Efficiency(CottonCanvas) < Efficiency(ModernNylon)
  {
  }

  /**
   The inverted triangle has the lowest centre of effort of all shapes. It
   is not the lowest heeling factor (lever arm times drag): the right
   triangle's is lower still.
   */
  lemma InvertedTriangleLowestLever(s: SailShape)
    ensures Shape(InvertedTriangle).leverArm <= Shape(s).leverArm
    ensures s != InvertedTriangle ==> Shape(InvertedTriangle).leverArm < Shape(s).leverArm
    ensures Shape(RightTriangle).leverArm * Shape(RightTriangle).dragCoeff
      < Shape(InvertedTriangle).leverArm * Shape(InvertedTriangle).dragCoeff
  {
  }
}

/**
 * Radar chart layout decisions that do not need trigonometry: the level
 * table, the radius of each vertex, the three-way left/right/centre split
 * used to align the labels and to offset the tooltip, and the tooltip
 * offset itself. Vertex coordinates (cosine and sine of the axis angle) are
 * inputs here.
 */
module RadarLayout {

  /** Centre of the 500 x 500 view box, and the largest radius. */
  const CX: real := 250.0
  const CY: real := 250.0
  const MaxR: real := 190.0
  /** Half-width of the band around the vertical axis in which things are centred. */
  const Band: real := 20.0
  /** Number of axes (domains). */
  const N := 10
  /** Horizontal gap between a vertex and the tooltip beside it. */
  const TooltipGap: real := 16.0
  /** The tooltip's top edge sits this far above the vertex. */
  const TooltipRise: real := 20.0

  /** Levels of the ten domains, in axis order. */
  const Levels: seq<int> := [10, 9, 9, 9, 8, 8, 6, 5, 3, 3]

  datatype Point = Point(x: real, y: real)

  const Centre := Point(CX, CY)

  /** Radius of the vertex of a domain of the given level: `level / 10` of the largest radius. */
  function TargetRadius(level: int): (r: real)
    requires 0 <= level <= 10
    ensures 0.0 <= r <= MaxR
    ensures level == 0 <==> r == 0.0
    ensures level == 10 <==> r == MaxR
  {
    (level as real / 10.0) * MaxR
  }

  /** A higher level places the vertex strictly further out. */
  lemma TargetRadiusMonotone(a: int, b: int)
    requires 0 <= a < b <= 10
    ensures TargetRadius(a) < TargetRadius(b)
  {
  }

  lemma LevelsInRange()
    ensures |Levels| == N
    ensures forall k :: 0 <= k < N ==> 0 <= Levels[k] <= 10
  {
  }

  /** Every domain of the page sits strictly away from the centre and within the largest radius. */
  lemma PageRadii()
    ensures forall k :: 0 <= k < |Levels| ==> 0.0 < TargetRadius(Levels[k]) <= MaxR
  {
    forall k | 0 <= k < |Levels| ensures 0.0 < TargetRadius(Levels[k]) <= MaxR {
      assert 1 <= Levels[k] <= 10;
    }
  }

  /**
   * How a label is anchored at its point: `EndAtPoint` is right-aligned and
   * shifted fully left of the point, `StartAtPoint` begins at the point, and
   * `Centred` is centred horizontally and sits above the point or below it.
   */
  datatype Align = EndAtPoint | StartAtPoint | Centred(above: bool)

  /** The label rule: left of the band, right of the band, else centred; the band's edges are centred. */
  function LabelAlign(p: Point): (a: Align)
    ensures a == EndAtPoint <==> p.x < CX - Band
    ensures a == StartAtPoint <==> p.x > CX + Band
    ensures a.Centred? <==> CX - Band <= p.x <= CX + Band
    ensures a.Centred? ==> (a.above <==> p.y < CY)
  {
    if p.x < CX - Band then EndAtPoint
    else if p.x > CX + Band then StartAtPoint
    else Centred(p.y < CY)
  }

  /** Which side of the vertex the tooltip is put on. */
  datatype Side = RightOfPoint | LeftOfPoint | AtPoint

  /** The tooltip rule: the same split as `LabelAlign`, written with the right-hand test first. */
  function TooltipSide(p: Point): (s: Side)
    ensures s == RightOfPoint <==> p.x > CX + Band
    ensures s == LeftOfPoint <==> p.x < CX - Band
    ensures s == AtPoint <==> CX - Band <= p.x <= CX + Band
  {
    if p.x > CX + Band then RightOfPoint
    else if p.x < CX - Band then LeftOfPoint
    else AtPoint
  }

  /**
   * The two rules agree: the tooltip goes right of a vertex exactly when a
   * label there would start at the point, left exactly when it would end at
   * it, and on the point exactly when it would be centred.
   */
  lemma SidesAgree(p: Point)
    ensures TooltipSide(p) == RightOfPoint <==> LabelAlign(p) == StartAtPoint
    ensures TooltipSide(p) == LeftOfPoint <==> LabelAlign(p) == EndAtPoint
    ensures TooltipSide(p) == AtPoint <==> LabelAlign(p).Centred?
  {
  }

  /** The two boundary values of the band are centred. */
  lemma BandEdgesCentred(y: real)
    ensures LabelAlign(Point(CX - Band, y)).Centred? && LabelAlign(Point(CX + Band, y)).Centred?
    ensures TooltipSide(Point(CX - Band, y)) == AtPoint && TooltipSide(Point(CX + Band, y)) == AtPoint
  {
  }

  /**
   * The CSS position given to the tooltip: either its left edge or its right
   * edge is set (the other is `auto`), measured in pixels in the radar box.
   */
  datatype Placement = Placement(left: real, right: real, setsLeft: bool, top: real)

  /**
   * The tooltip's position for vertex `p`, where `(tx, ty)` is the vertex's
   * position in the radar box and `boxWidth` the box's width.
   */
  function TooltipPlacement(p: Point, tx: real, ty: real, boxWidth: real): (pl: Placement)
    ensures pl.top == ty - TooltipRise
    ensures pl.setsLeft <==> TooltipSide(p) != LeftOfPoint
  {
    match TooltipSide(p)
    case RightOfPoint => Placement(tx + TooltipGap, 0.0, true, ty - TooltipRise)
    case LeftOfPoint => Placement(0.0, boxWidth - tx + TooltipGap, false, ty - TooltipRise)
    case AtPoint => Placement(tx, 0.0, true, ty - TooltipRise)
  }

  /**
   * The tooltip never covers a vertex outside the band: right of the band its
   * left edge is 16 px right of the vertex, left of the band its right edge is
   * 16 px left of the vertex (the right offset is measured from the box's right edge).
   */
  lemma TooltipClearsVertex(p: Point, tx: real, ty: real, boxWidth: real)
    ensures var pl := TooltipPlacement(p, tx, ty, boxWidth);
      && (p.x > CX + Band ==> pl.setsLeft && pl.left - tx == TooltipGap)
      && (p.x < CX - Band ==> !pl.setsLeft && tx - (boxWidth - pl.right) == TooltipGap)
      && (CX - Band <= p.x <= CX + Band ==> pl.setsLeft && pl.left == tx)
  {
  }
}

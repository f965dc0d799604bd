/**
 * The small total maps from Mapbox GL layout values to QGIS settings: line
 * cap and join styles, the label quadrant a text anchor selects (with the
 * numeric table used when the anchor varies with zoom), and whether icons
 * rotate with the map.
 */
module Styles {
  import opened Json

  // ---------------------------------------------------------------------
  // parseCapStyle / parseJoinStyle

  /** Qt pen cap styles. */
  datatype CapStyle = FlatCap | SquareCap | RoundCap

  /** parseCapStyle: `round` and `square` are recognised; everything else (`butt` included) is flat. */
  function ParseCapStyle(style: string): (c: CapStyle)
    ensures c == RoundCap <==> style == "round"
    ensures c == SquareCap <==> style == "square"
  {
    if style == "round" then RoundCap
    else if style == "square" then SquareCap
    else FlatCap
  }

  /** The Mapbox GL `line-cap` value naming a cap style; parsing it gives the style back. */
  function CapName(c: CapStyle): (name: string)
    ensures ParseCapStyle(name) == c
    ensures name in {"butt", "round", "square"}
  {
    match c
    case FlatCap => "butt"
    case SquareCap => "square"
    case RoundCap => "round"
  }

  /** Qt pen join styles. */
  datatype JoinStyle = MiterJoin | BevelJoin | RoundJoin

  /** parseJoinStyle: `bevel` and `round` are recognised; everything else (`miter` included) is a miter join. */
  function ParseJoinStyle(style: string): (j: JoinStyle)
    ensures j == BevelJoin <==> style == "bevel"
    ensures j == RoundJoin <==> style == "round"
  {
    if style == "bevel" then BevelJoin
    else if style == "round" then RoundJoin
    else MiterJoin
  }

  /** The Mapbox GL `line-join` value naming a join style; parsing it gives the style back. */
  function JoinName(j: JoinStyle): (name: string)
    ensures ParseJoinStyle(name) == j
    ensures name in {"miter", "bevel", "round"}
  {
    match j
    case MiterJoin => "miter"
    case BevelJoin => "bevel"
    case RoundJoin => "round"
  }

  // ---------------------------------------------------------------------
  // text-anchor

  /** The nine label quadrants around a point, in QGIS's numbering (0 .. 8, row by row). */
  datatype Quadrant =
    | AboveLeft | Above | AboveRight
    | Left | Over | Right
    | BelowLeft | Below | BelowRight

  /** A quadrant's number: three times its row (above, level, below) plus its column (left, centre, right). */
  function Ordinal(q: Quadrant): (n: nat)
    ensures n < 9
  {
    match q
    case AboveLeft => 0
    case Above => 1
    case AboveRight => 2
    case Left => 3
    case Over => 4
    case Right => 5
    case BelowLeft => 6
    case Below => 7
    case BelowRight => 8
  }

  /** The quadrant in row `row` and column `col`, both 0 .. 2. */
  function QuadrantAt(row: nat, col: nat): (q: Quadrant)
    requires row < 3 && col < 3
    ensures Ordinal(q) == 3 * row + col
  {
    [AboveLeft, Above, AboveRight, Left, Over, Right, BelowLeft, Below, BelowRight][3 * row + col]
  }

  /**
   * The numeric quadrant for each text anchor, used in CASE expressions when
   * the anchor is given as zoom stops.
   */
  const AnchorConversionMap: map<string, Json> := map[
    "center" := Int(4), "left" := Int(5), "right" := Int(3), "top" := Int(7), "bottom" := Int(1),
    "top-left" := Int(8), "top-right" := Int(6), "bottom-left" := Int(2), "bottom-right" := Int(0)]

  /**
   * The quadrant a text anchor selects; none for a value that is not an
   * anchor name, in which case the label keeps its quadrant. The quadrant
   * agrees with the numeric table.
   */
  function AnchorQuadrant(anchor: string): (q: Option<Quadrant>)
    ensures q.Some? <==> anchor in AnchorConversionMap
    ensures q.Some? ==> AnchorConversionMap[anchor] == Int(Ordinal(q.value))
  {
    if anchor == "center" then Some(Over)
    else if anchor == "left" then Some(Right)
    else if anchor == "right" then Some(Left)
    else if anchor == "top" then Some(Below)
    else if anchor == "bottom" then Some(Above)
    else if anchor == "top-left" then Some(BelowRight)
    else if anchor == "top-right" then Some(BelowLeft)
    else if anchor == "bottom-left" then Some(AboveRight)
    else if anchor == "bottom-right" then Some(AboveLeft)
    else None
  }

  /**
   * The anchor naming the point of the label box that sits on the feature:
   * `row` 0 / 1 / 2 for its top / middle / bottom, `col` 0 / 1 / 2 for its
   * left / middle / right. The label then lies in the mirrored quadrant:
   * anchored at its top-left corner, it is drawn below and to the right.
   */
  function AnchorName(row: nat, col: nat): (anchor: string)
    requires row < 3 && col < 3
    ensures AnchorQuadrant(anchor) == Some(QuadrantAt(2 - row, 2 - col))
    ensures AnchorConversionMap[anchor] == Int(3 * (2 - row) + (2 - col))
  {
    var vertical := if row == 0 then "top" else if row == 2 then "bottom" else "";
    var horizontal := if col == 0 then "left" else if col == 2 then "right" else "";
    if vertical == "" && horizontal == "" then "center"
    else if vertical == "" then horizontal
    else if horizontal == "" then vertical
    else vertical + "-" + horizontal
  }

  /** Every anchor name is one of the nine box positions. */
  lemma AnchorsAreBoxPositions(anchor: string)
    requires anchor in AnchorConversionMap
    ensures exists row: nat, col: nat :: row < 3 && col < 3 && anchor == AnchorName(row, col)
  {
    if anchor == "center" { assert anchor == AnchorName(1, 1); }
    else if anchor == "left" { assert anchor == AnchorName(1, 0); }
    else if anchor == "right" { assert anchor == AnchorName(1, 2); }
    else if anchor == "top" { assert anchor == AnchorName(0, 1); }
    else if anchor == "bottom" { assert anchor == AnchorName(2, 1); }
    else if anchor == "top-left" { assert anchor == AnchorName(0, 0); }
    else if anchor == "top-right" { assert anchor == AnchorName(0, 2); }
    else if anchor == "bottom-left" { assert anchor == AnchorName(2, 0); }
    else { assert anchor == AnchorName(2, 2); }
  }

  // ---------------------------------------------------------------------
  // icon-rotation-alignment

  /**
   * Whether markers rotate with the line: only an `icon-rotation-alignment`
   * of `viewport` turns it off; `map`, `auto`, other values and no value at
   * all keep it on.
   */
  function RotateMarkers(layout: map<string, Json>): (rotate: bool)
    ensures !rotate <==> "icon-rotation-alignment" in layout && ToText(layout["icon-rotation-alignment"]) == "viewport"
  {
    if "icon-rotation-alignment" in layout then
      var alignment := ToText(layout["icon-rotation-alignment"]);
      if alignment == "map" || alignment == "auto" then true
      else if alignment == "viewport" then false
      else true
    else true
  }
}

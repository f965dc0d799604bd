/**
 * parseLineLayer: a Mapbox GL `line` layer becomes a simple line symbol.
 * The paint values are read in the source's order (colour, width, offset,
 * opacity, dash array), then the cap and join styles from the layout.
 */
module Line {
  import opened Json
  import opened Context
  import opened Styles
  import opened Settings

  /**
   * The resulting line symbol: its data-defined properties, the colour when
   * valid, the width when set, the offset, the opacity when set, the custom
   * dash pattern when there is one, and the pen's cap and join styles.
   */
  datatype LineSymbol = LineSymbol(
    props: Properties,
    color: Option<Color>,
    width: Option<real>,
    offset: real,
    opacity: Option<real>,
    dash: Option<seq<real>>,
    cap: CapStyle,
    join: JoinStyle)

  /** What the converter has read so far. -1 marks a width or opacity not to be set. */
  datatype LineState = LineState(
    props: Properties,
    color: Color,
    width: real,
    offset: real,
    opacity: real,
    dash: seq<real>,
    warnings: seq<string>)

  /**
   * `line-color`: the colour, or a data-defined colour which is then both the
   * fill and the stroke colour of the line.
   */
  function ReadLineColor(paint: map<string, Json>, ctx: ConversionContext): (s: LineState)
    ensures s.props.Keys <= {FillColor, StrokeColor}
    ensures FillColor in s.props <==> StrokeColor in s.props
    ensures FillColor in s.props ==> s.props[StrokeColor] == s.props[FillColor]
    ensures s.width == 1.0 && s.offset == 0.0 && s.opacity == -1.0 && s.dash == []
    ensures var c := ReadColorAt(paint, "line-color", ctx, "color");
      && s.color == c.value && s.warnings == c.warnings
      && (FillColor in s.props <==> c.prop.Some? && c.prop.value.Expression?)
      && (FillColor in s.props ==> s.props[FillColor] == c.prop.value.text)
  {
    var c := ReadColorAt(paint, "line-color", ctx, "color");
    var props := Apply(map[], FillColor, c);
    var props := if c.prop.Some? then SetProperty(props, StrokeColor, PropertyOf(props, FillColor)) else props;
    LineState(props, c.value, 1.0, 0.0, -1.0, [], c.warnings)
  }

  /**
   * `line-width` and `line-offset`, both in pixels scaled by the conversion
   * factor, the offset with its sign inverted. Zoom stops for the width
   * start from -1 (not set) before taking the first stop's width; zoom
   * stops for the offset also reset the width to -1.
   */
  function ReadWidthAndOffset(paint: map<string, Json>, ctx: ConversionContext, s: LineState): (t: LineState)
    ensures t.color == s.color && t.opacity == s.opacity && t.dash == s.dash
    ensures s.warnings <= t.warnings
    ensures "line-offset" in paint && paint["line-offset"].Object? ==> t.width == -1.0
    ensures forall k :: k != StrokeWidth && k != Offset ==> (k in t.props <==> k in s.props)
    ensures forall k :: k != StrokeWidth && k != Offset && k in t.props ==> t.props[k] == s.props[k]
  {
    ResetWidth(paint, ReadOffset(paint, ctx, ReadWidth(paint, ctx, s)))
  }

  /** `line-width`: zoom stops start from -1 (not set) before taking the first stop's width. */
  function ReadWidth(paint: map<string, Json>, ctx: ConversionContext, s: LineState): (t: LineState)
    ensures var factor := ctx.pixelSizeConversionFactor;
      var w := ReadNumberAt(paint, "line-width", ctx, "line-width", factor, factor, s.width, Some(-1.0), None);
      t == s.(props := Apply(s.props, StrokeWidth, w), width := w.value, warnings := s.warnings + w.warnings)
  {
    var factor := ctx.pixelSizeConversionFactor;
    var w := ReadNumberAt(paint, "line-width", ctx, "line-width", factor, factor, s.width, Some(-1.0), None);
    s.(props := Apply(s.props, StrokeWidth, w), width := w.value, warnings := s.warnings + w.warnings)
  }

  /** `line-offset`, negated. */
  function ReadOffset(paint: map<string, Json>, ctx: ConversionContext, s: LineState): (t: LineState)
    ensures var o := ReadNumberAt(paint, "line-offset", ctx, "line-offset", Negated(ctx), Negated(ctx), s.offset, None, None);
      t == s.(props := Apply(s.props, Offset, o), offset := o.value, warnings := s.warnings + o.warnings)
  {
    var o := ReadNumberAt(paint, "line-offset", ctx, "line-offset", Negated(ctx), Negated(ctx), s.offset, None, None);
    s.(props := Apply(s.props, Offset, o), offset := o.value, warnings := s.warnings + o.warnings)
  }

  /** The conversion factor with its sign inverted, for offsets. */
  function Negated(ctx: ConversionContext): real
  {
    -ctx.pixelSizeConversionFactor
  }


  /** Zoom stops for `line-offset` reset the width to -1 (not set). */
  function ResetWidth(paint: map<string, Json>, s: LineState): (t: LineState)
    ensures "line-offset" in paint && paint["line-offset"].Object? ==> t == s.(width := -1.0)
    ensures !("line-offset" in paint && paint["line-offset"].Object?) ==> t == s
  {
    if "line-offset" in paint && paint["line-offset"].Object? then s.(width := -1.0) else s
  }

  /**
   * What `ReadWidthAndOffset` sets: the width's property under the stroke
   * width, the offset's under the offset, the width's warnings before the
   * offset's, and the width read unless offset stops reset it.
   */
  lemma WidthAndOffsetSettings(paint: map<string, Json>, ctx: ConversionContext, s: LineState)
    ensures var t := ReadWidthAndOffset(paint, ctx, s);
      var factor := ctx.pixelSizeConversionFactor;
      var w := ReadNumberAt(paint, "line-width", ctx, "line-width", factor, factor, s.width, Some(-1.0), None);
      var o := ReadNumberAt(paint, "line-offset", ctx, "line-offset", Negated(ctx), Negated(ctx), s.offset, None, None);
      && t.props == Apply(Apply(s.props, StrokeWidth, w), Offset, o)
      && t.offset == o.value
      && (!("line-offset" in paint && paint["line-offset"].Object?) ==> t.width == w.value)
      && t.warnings == s.warnings + w.warnings + o.warnings
  {
    var u := ReadWidth(paint, ctx, s);
    var v := ReadOffset(paint, ctx, u);
    assert ReadWidthAndOffset(paint, ctx, s) == ResetWidth(paint, v);
  }

  /**
   * The numbers read by `ReadWidthAndOffset`: a numeric width and offset are
   * scaled by the conversion factor, the offset negated; absent keys keep
   * what was there.
   */
  lemma WidthAndOffsetValues(paint: map<string, Json>, ctx: ConversionContext, s: LineState)
    ensures var t := ReadWidthAndOffset(paint, ctx, s);
      && ("line-width" !in paint && "line-offset" !in paint ==> t.width == s.width)
      && ("line-width" in paint && IsNumber(paint["line-width"]) && !("line-offset" in paint && paint["line-offset"].Object?) ==>
            t.width == ToNumber(paint["line-width"]) * ctx.pixelSizeConversionFactor)
      && ("line-offset" !in paint ==> t.offset == s.offset)
      && ("line-offset" in paint && IsNumber(paint["line-offset"]) ==>
            t.offset == -(ToNumber(paint["line-offset"]) * ctx.pixelSizeConversionFactor))
  {
  }

  /**
   * `line-opacity`: a number is the symbol opacity; zoom stops or an
   * `interpolate` expression rewrite the stroke colour's alpha, unless the
   * stroke colour is already data-defined, in which case the layer only warns.
   */
  function ReadLineOpacity(paint: map<string, Json>, ctx: ConversionContext, id: string, s: LineState): (t: LineState)
    ensures "line-opacity" !in paint ==> t == s
    ensures "line-opacity" in paint && IsNumber(paint["line-opacity"]) ==> t == s.(opacity := ToNumber(paint["line-opacity"]))
    ensures "line-opacity" in paint && (paint["line-opacity"].Object? || paint["line-opacity"].List?) && StrokeColor in s.props ==>
      t == s.(warnings := s.warnings + [OpacityConflictWarning(id, "stroke color")])
    ensures "line-opacity" in paint && (paint["line-opacity"].Object? || paint["line-opacity"].List?) && StrokeColor !in s.props ==>
      var p := OpacityProperty(paint["line-opacity"], ctx, AlphaOf(s.color));
      && (StrokeColor in t.props <==> p.value.Expression?)
      && (p.value.Expression? ==> t.props[StrokeColor] == p.value.text)
      && t.warnings == s.warnings + p.warnings && t.opacity == s.opacity
    ensures "line-opacity" in paint && !IsNumber(paint["line-opacity"]) && !paint["line-opacity"].Object? && !paint["line-opacity"].List? ==>
      t == s.(warnings := s.warnings + [NonImplementedWarning("opacity")])
    ensures t.color == s.color && t.width == s.width && t.offset == s.offset && t.dash == s.dash
    ensures s.warnings <= t.warnings
    ensures forall k :: k != StrokeColor ==> (k in t.props <==> k in s.props)
    ensures forall k :: k != StrokeColor && k in t.props ==> t.props[k] == s.props[k]
  {
    if "line-opacity" !in paint then s
    else
      var v := paint["line-opacity"];
      if IsNumber(v) then s.(opacity := ToNumber(v))
      else if v.Object? || v.List? then
        if StrokeColor in s.props then s.(warnings := s.warnings + [OpacityConflictWarning(id, "stroke color")])
        else
          var p := OpacityProperty(v, ctx, AlphaOf(s.color));
          s.(props := SetProperty(s.props, StrokeColor, p.value), warnings := s.warnings + p.warnings)
      else s.(warnings := s.warnings + [NonImplementedWarning("opacity")])
  }

  /** Every dash length scaled by the conversion factor. */
  function Scaled(source: seq<Json>, factor: real): (dash: seq<real>)
    ensures |dash| == |source|
    ensures forall i :: 0 <= i < |source| ==> dash[i] == ToNumber(source[i]) * factor
  {
    seq(|source|, i requires 0 <= i < |source| => ToNumber(source[i]) * factor)
  }

  /**
   * The dash lengths of zoom stops: those of the last stop. The source reads
   * the last element of an empty stops list, which is undefined; here it
   * reads as null, giving no dash lengths.
   */
  function LastStopDashes(stops: map<string, Json>): (source: seq<Json>)
    ensures var list := ToList(Get(stops, "stops"));
      |list| > 0 ==> source == ToList(At(ToList(list[|list| - 1]), 1))
  {
    var list := ToList(Get(stops, "stops"));
    var last := if |list| > 0 then list[|list| - 1] else Null;
    ToList(At(ToList(last), 1))
  }

  /** `line-dasharray`: the list of dash lengths, or the last stop's list for zoom stops. */
  function ReadDashes(paint: map<string, Json>, ctx: ConversionContext, s: LineState): (t: LineState)
    ensures "line-dasharray" !in paint ==> t == s
    ensures "line-dasharray" in paint && paint["line-dasharray"].List? ==>
      t == s.(dash := Scaled(paint["line-dasharray"].items, ctx.pixelSizeConversionFactor))
    ensures "line-dasharray" in paint && paint["line-dasharray"].Object? ==>
      t == s.(dash := Scaled(LastStopDashes(paint["line-dasharray"].fields), ctx.pixelSizeConversionFactor))
    ensures "line-dasharray" in paint && !paint["line-dasharray"].List? && !paint["line-dasharray"].Object? ==>
      t == s.(warnings := s.warnings + [NonImplementedWarning("dash vector")])
    ensures t.props == s.props && t.color == s.color && t.width == s.width && t.offset == s.offset && t.opacity == s.opacity
    ensures s.warnings <= t.warnings
  {
    if "line-dasharray" !in paint then s
    else
      var v := paint["line-dasharray"];
      match v
      case List(items) => s.(dash := Scaled(items, ctx.pixelSizeConversionFactor))
      case Object(fields) => s.(dash := Scaled(LastStopDashes(fields), ctx.pixelSizeConversionFactor))
      case _ => s.(warnings := s.warnings + [NonImplementedWarning("dash vector")])
  }

  /** The cap and join styles named in the layout; flat and miter without them. */
  function PenStyles(layer: map<string, Json>): (r: (CapStyle, JoinStyle))
    ensures "layout" !in layer ==> r == (FlatCap, MiterJoin)
    ensures "line-cap" !in ToObject(Get(layer, "layout")) ==> r.0 == FlatCap
    ensures "line-join" !in ToObject(Get(layer, "layout")) ==> r.1 == MiterJoin
    ensures "layout" in layer && "line-cap" in ToObject(layer["layout"]) ==>
      r.0 == ParseCapStyle(ToText(ToObject(layer["layout"])["line-cap"]))
    ensures "layout" in layer && "line-join" in ToObject(layer["layout"]) ==>
      r.1 == ParseJoinStyle(ToText(ToObject(layer["layout"])["line-join"]))
  {
    if "layout" !in layer then (FlatCap, MiterJoin)
    else
      var layout := ToObject(layer["layout"]);
      (if "line-cap" in layout then ParseCapStyle(ToText(layout["line-cap"])) else FlatCap,
       if "line-join" in layout then ParseJoinStyle(ToText(layout["line-join"])) else MiterJoin)
  }

  /** The state after every paint value is read. */
  function ReadLinePaint(paint: map<string, Json>, ctx: ConversionContext, id: string): LineState
  {
    ReadDashes(paint, ctx, ReadLineOpacity(paint, ctx, id, ReadWidthAndOffset(paint, ctx, ReadLineColor(paint, ctx))))
  }

  /** A value other than the -1 that marks it as not to be set. */
  function UnlessUnset(x: real): (r: Option<real>)
    ensures r.Some? <==> x != -1.0
    ensures r.Some? ==> r.value == x
  {
    if x != -1.0 then Some(x) else None
  }

  /**
   * parseLineLayer: nothing but a warning without a `paint` object;
   * otherwise a line symbol whose colour is set only when valid, whose width
   * and opacity are set only when not -1, and which has a custom dash
   * pattern only for a non-empty dash list.
   */
  function ParseLineLayer(layer: map<string, Json>, ctx: ConversionContext): (r: Warned<Option<LineSymbol>>)
    ensures r.value.None? <==> "paint" !in layer
    ensures r.value.None? ==> r.warnings == [MissingWarning(ToText(Get(layer, "id")), "paint")]
    ensures r.value.Some? ==>
      var s := ReadLinePaint(ToObject(layer["paint"]), ctx, ToText(Get(layer, "id")));
      var symbol := r.value.value;
      && symbol.props == s.props && r.warnings == s.warnings
      && (symbol.color.Some? <==> s.color.valid) && (symbol.color.Some? ==> symbol.color.value == s.color)
      && symbol.width == UnlessUnset(s.width) && symbol.opacity == UnlessUnset(s.opacity)
      && symbol.offset == s.offset
      && (symbol.dash.Some? <==> |s.dash| > 0) && (symbol.dash.Some? ==> symbol.dash.value == s.dash)
      && (symbol.cap, symbol.join) == PenStyles(layer)
  {
    var id := ToText(Get(layer, "id"));
    if "paint" !in layer then Warned(None, [MissingWarning(id, "paint")])
    else
      var s := ReadLinePaint(ToObject(layer["paint"]), ctx, id);
      var styles := PenStyles(layer);
      var symbol := LineSymbol(s.props, if s.color.valid then Some(s.color) else None, UnlessUnset(s.width), s.offset,
                               UnlessUnset(s.opacity), if |s.dash| > 0 then Some(s.dash) else None, styles.0, styles.1);
      Warned(Some(symbol), s.warnings)
  }

  // ---------------------------------------------------------------------
  // Properties

  /** Without a width or offset, the line is one pixel wide. */
  lemma WidthDefaultsToOne(layer: map<string, Json>, ctx: ConversionContext)
    requires "paint" in layer
    requires "line-width" !in ToObject(layer["paint"]) && "line-offset" !in ToObject(layer["paint"])
    ensures var r := ParseLineLayer(layer, ctx);
      r.value.Some? && r.value.value.width == Some(1.0)
  {
    var paint := ToObject(layer["paint"]);
    var id := ToText(Get(layer, "id"));
    var s1 := ReadLineColor(paint, ctx);
    var s2 := ReadWidthAndOffset(paint, ctx, s1);
    assert s2.width == 1.0;
    var s3 := ReadLineOpacity(paint, ctx, id, s2);
    assert ReadDashes(paint, ctx, s3).width == 1.0;
  }

  /** A constant offset is inverted: Mapbox GL offsets to the right, QGIS to the left. */
  lemma OffsetIsInverted(layer: map<string, Json>, ctx: ConversionContext)
    requires "paint" in layer
    requires "line-offset" in ToObject(layer["paint"]) && IsNumber(ToObject(layer["paint"])["line-offset"])
    ensures var r := ParseLineLayer(layer, ctx);
      r.value.Some? && r.value.value.offset == -(ToNumber(ToObject(layer["paint"])["line-offset"]) * ctx.pixelSizeConversionFactor)
  {
    var paint := ToObject(layer["paint"]);
    var id := ToText(Get(layer, "id"));
    var s1 := ReadLineColor(paint, ctx);
    WidthAndOffsetValues(paint, ctx, s1);
    var s2 := ReadWidthAndOffset(paint, ctx, s1);
    var s3 := ReadLineOpacity(paint, ctx, id, s2);
    assert ReadLinePaint(paint, ctx, id).offset == s2.offset;
  }

  /** Zoom stops for the offset leave the width unset, whatever `line-width` says. */
  lemma OffsetStopsUnsetWidth(layer: map<string, Json>, ctx: ConversionContext)
    requires "paint" in layer
    requires "line-offset" in ToObject(layer["paint"]) && ToObject(layer["paint"])["line-offset"].Object?
    ensures var r := ParseLineLayer(layer, ctx);
      r.value.Some? && r.value.value.width.None?
  {
    var paint := ToObject(layer["paint"]);
    var id := ToText(Get(layer, "id"));
    var s1 := ReadLineColor(paint, ctx);
    WidthAndOffsetValues(paint, ctx, s1);
    var s2 := ReadWidthAndOffset(paint, ctx, s1);
    var s3 := ReadLineOpacity(paint, ctx, id, s2);
    assert ReadDashes(paint, ctx, s3).width == -1.0;
  }

  /** The dash lengths of zoom stops are those of the last stop, scaled. */
  lemma DashesFromLastStop(layer: map<string, Json>, ctx: ConversionContext, last: Json)
    requires "paint" in layer
    requires var paint := ToObject(layer["paint"]);
      "line-dasharray" in paint && paint["line-dasharray"].Object?
      && var stops := ToList(Get(paint["line-dasharray"].fields, "stops"));
      |stops| > 0 && stops[|stops| - 1] == last
    requires |ToList(At(ToList(last), 1))| > 0
    ensures var r := ParseLineLayer(layer, ctx);
      r.value.Some? && r.value.value.dash == Some(Scaled(ToList(At(ToList(last), 1)), ctx.pixelSizeConversionFactor))
  {
  }

  /**
   * An opacity given per zoom never overwrites a stroke colour that is
   * already data-defined: the colour expression stays and the layer warns.
   */
  lemma OpacityKeepsDataDefinedStroke(paint: map<string, Json>, ctx: ConversionContext, id: string)
    requires "line-opacity" in paint && (paint["line-opacity"].Object? || paint["line-opacity"].List?)
    requires StrokeColor in ReadLineColor(paint, ctx).props
    ensures var s := ReadLinePaint(paint, ctx, id);
      && StrokeColor in s.props
      && s.props[StrokeColor] == ReadLineColor(paint, ctx).props[FillColor]
      && OpacityConflictWarning(id, "stroke color") in s.warnings
  {
    var s1 := ReadLineColor(paint, ctx);
    var s2 := ReadWidthAndOffset(paint, ctx, s1);
    assert StrokeColor in s2.props && s2.props[StrokeColor] == s1.props[FillColor];
    OpacityConflictStage(paint, ctx, id, s2);
  }

  lemma OpacityConflictStage(paint: map<string, Json>, ctx: ConversionContext, id: string, s: LineState)
    requires "line-opacity" in paint && (paint["line-opacity"].Object? || paint["line-opacity"].List?)
    requires StrokeColor in s.props
    ensures var t := ReadLineOpacity(paint, ctx, id, s);
      var u := ReadDashes(paint, ctx, t);
      && u.props == s.props
      && u.warnings[|s.warnings|] == OpacityConflictWarning(id, "stroke color")
  {
  }
}

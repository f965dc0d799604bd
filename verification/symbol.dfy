/**
 * parseSymbolLayer and parseSymbolLayerAsRenderer: a Mapbox GL `symbol`
 * layer with a `text-field` becomes label settings (text format, label
 * expression, placement) and, when its icon sprite is found, a raster
 * marker; without a `text-field` it can only become markers along lines.
 */
module Symbol {
  import opened Json
  import opened Context
  import opened Quoting
  import opened Interpolation
  import opened Expressions
  import opened Labels
  import opened Styles
  import opened Settings

  /**
   * A raster marker: the sprite image when found, its size (the sprite's
   * width in pixels scaled by the conversion factor; none when there is no
   * sprite), angle, opacity when set, and data-defined properties.
   */
  datatype RasterMarker = RasterMarker(
    image: Option<SpriteImage>,
    size: Option<real>,
    angle: real,
    opacity: Option<real>,
    props: Properties)

  /**
   * What a symbol layer draws besides labels: an icon at each point, or a
   * marker repeated along lines every `interval` (only at the central point
   * when `centralPoint`), rotated with the line when `rotate`.
   */
  datatype SymbolRenderer =
    | IconRenderer(icon: RasterMarker)
    | MarkerLineRenderer(rotate: bool, interval: real, centralPoint: bool, props: Properties, marker: RasterMarker)

  datatype Placement = OverPoint | Curved

  datatype GeometryType = PointGeometry | LineGeometry

  /** The text buffer (halo): its size, colour and blur when set. */
  datatype Buffer = Buffer(size: real, color: Color, blur: Option<real>)

  /**
   * The label settings: the label expression, placement and the geometry
   * type it labels, the quadrant and offset around a point, the wrap
   * length, and the text format (size, font, letter spacing, colour,
   * buffer), each only when set, plus data-defined properties.
   */
  datatype LabelSettings = LabelSettings(
    field: LabelField,
    placement: Placement,
    geometry: GeometryType,
    quadrant: Quadrant,
    offset: (real, real),
    autoWrapLength: Option<real>,
    size: Option<real>,
    font: Option<Font>,
    letterSpacing: Option<real>,
    color: Option<Color>,
    buffer: Option<Buffer>,
    props: Properties)

  /** The text format read so far. -1 marks a value not given. */
  datatype TextState = TextState(
    props: Properties,
    textSize: real,
    maxWidth: real,
    letterSpacing: real,
    font: Option<Font>,
    textColor: Color,
    bufferColor: Color,
    bufferSize: real,
    blur: real,
    warnings: seq<string>)

  /**
   * The layout part of the text format: `text-size` (16 by default; -1 until
   * the first stop for stops), `text-max-width` in ems (1.4 characters
   * each), `text-letter-spacing` and `text-font`.
   */
  function ReadTextLayout(layout: map<string, Json>, ctx: ConversionContext): (s: TextState)
    ensures "text-size" !in layout ==> s.textSize == 16.0
    ensures "text-size" in layout && IsNumber(layout["text-size"]) ==>
      s.textSize == ToNumber(layout["text-size"]) * ctx.pixelSizeConversionFactor
    ensures "text-max-width" !in layout ==> s.maxWidth == -1.0
    ensures "text-max-width" in layout && IsNumber(layout["text-max-width"]) ==>
      s.maxWidth == ToNumber(layout["text-max-width"]) * EmToChars
    ensures "text-font" !in layout ==> s.font.None?
    ensures "text-font" in layout ==> s.font == TextFont(layout["text-font"], ctx).value
    ensures s.props.Keys <= {Size, AutoWrapLength, FontLetterSpacing}
  {
    var f := ctx.pixelSizeConversionFactor;
    var size := ReadNumberAt(layout, "text-size", ctx, "text-size", f, f, 16.0, Some(-1.0), Some(-1.0));
    var width := ReadNumberAt(layout, "text-max-width", ctx, "text-max-width", EmToChars, EmToChars, -1.0, None, None);
    var spacing := ReadNumberAt(layout, "text-letter-spacing", ctx, "text-letter-spacing", 1.0, 1.0, -1.0, None, None);
    var font := if "text-font" in layout then TextFont(layout["text-font"], ctx) else Warned(None, []);
    var props := Apply(Apply(Apply(map[], Size, size), AutoWrapLength, width), FontLetterSpacing, spacing);
    TextState(props, size.value, width.value, spacing.value, font.value, InvalidColor, InvalidColor, 0.0, 0.0,
              size.warnings + width.warnings + spacing.warnings + font.warnings)
  }

  /**
   * What `ReadTextLayout` reads: the text size (16 without it, -1 until the
   * first stop for stops), the wrap length, the letter spacing (a number as
   * is, stops with multiplier 1, -1 without it) each as a plain value and a
   * data-defined property, and the warnings of the size, width, spacing and
   * font in that order.
   */
  lemma TextLayoutSettings(layout: map<string, Json>, ctx: ConversionContext)
    ensures var s := ReadTextLayout(layout, ctx);
      var f := ctx.pixelSizeConversionFactor;
      var size := ReadNumberAt(layout, "text-size", ctx, "text-size", f, f, 16.0, Some(-1.0), Some(-1.0));
      var width := ReadNumberAt(layout, "text-max-width", ctx, "text-max-width", EmToChars, EmToChars, -1.0, None, None);
      var spacing := ReadNumberAt(layout, "text-letter-spacing", ctx, "text-letter-spacing", 1.0, 1.0, -1.0, None, None);
      var font := if "text-font" in layout then TextFont(layout["text-font"], ctx) else Warned(None, []);
      && s.textSize == size.value && s.maxWidth == width.value && s.letterSpacing == spacing.value
      && s.props == Apply(Apply(Apply(map[], Size, size), AutoWrapLength, width), FontLetterSpacing, spacing)
      && s.warnings == size.warnings + width.warnings + spacing.warnings + font.warnings
  {
  }

  /** `text-color` and `text-halo-color`: the label and halo colours. */
  function ReadTextColors(paint: map<string, Json>, ctx: ConversionContext, s: TextState): (t: TextState)
    ensures t.textSize == s.textSize && t.maxWidth == s.maxWidth && t.letterSpacing == s.letterSpacing && t.font == s.font
    ensures t.bufferSize == s.bufferSize && t.blur == s.blur
    ensures s.warnings <= t.warnings
    ensures "text-color" !in paint ==> t.textColor == InvalidColor
    ensures "text-color" in paint && paint["text-color"].Str? ==> t.textColor == ctx.parseColorText(paint["text-color"].s)
    ensures "text-halo-color" !in paint ==> t.bufferColor == InvalidColor
    ensures "text-halo-color" in paint && paint["text-halo-color"].Str? ==> t.bufferColor == ctx.parseColorText(paint["text-halo-color"].s)
    ensures forall k :: k != LabelColor && k != BufferColor ==> (k in t.props <==> k in s.props)
  {
    var color := ReadColorAt(paint, "text-color", ctx, "text-color");
    var halo := ReadColorAt(paint, "text-halo-color", ctx, "text-halo-color");
    s.(props := Apply(Apply(s.props, LabelColor, color), BufferColor, halo), textColor := color.value, bufferColor := halo.value,
       warnings := s.warnings + color.warnings + halo.warnings)
  }

  /** `text-halo-width`, in pixels scaled by the conversion factor (1 until the first stop for stops). */
  function ReadHaloWidth(paint: map<string, Json>, ctx: ConversionContext, s: TextState): (t: TextState)
    ensures t == s.(props := t.props, bufferSize := t.bufferSize, warnings := t.warnings)
    ensures s.warnings <= t.warnings
    ensures "text-halo-width" !in paint ==> t.bufferSize == 0.0
    ensures "text-halo-width" in paint && IsNumber(paint["text-halo-width"]) ==>
      t.bufferSize == ToNumber(paint["text-halo-width"]) * ctx.pixelSizeConversionFactor
    ensures forall k :: k != BufferSize ==> (k in t.props <==> k in s.props)
  {
    var width := ReadNumberAt(paint, "text-halo-width", ctx, "text-halo-width", ctx.pixelSizeConversionFactor,
                              ctx.pixelSizeConversionFactor, 0.0, Some(1.0), Some(1.0));
    s.(props := Apply(s.props, BufferSize, width), bufferSize := width.value, warnings := s.warnings + width.warnings)
  }

  /**
   * `text-halo-blur`, in pixels scaled by the conversion factor: numbers
   * only; anything else warns with the halo width wording.
   */
  function ReadHaloBlur(paint: map<string, Json>, ctx: ConversionContext, s: TextState): (t: TextState)
    ensures t == s.(blur := t.blur, warnings := t.warnings)
    ensures "text-halo-blur" !in paint ==> t == s.(blur := 0.0)
    ensures "text-halo-blur" in paint && IsNumber(paint["text-halo-blur"]) ==>
      t == s.(blur := ToNumber(paint["text-halo-blur"]) * ctx.pixelSizeConversionFactor)
    ensures "text-halo-blur" in paint && !IsNumber(paint["text-halo-blur"]) ==>
      t == s.(blur := 0.0, warnings := s.warnings + [NonImplementedWarning("text-halo-width")])
  {
    if "text-halo-blur" !in paint then s.(blur := 0.0)
    else if IsNumber(paint["text-halo-blur"]) then s.(blur := ToNumber(paint["text-halo-blur"]) * ctx.pixelSizeConversionFactor)
    else s.(blur := 0.0, warnings := s.warnings + [NonImplementedWarning("text-halo-width")])
  }

  /** The paint part of the text format: the colours, then the halo. */
  function ReadTextPaint(paint: map<string, Json>, ctx: ConversionContext, s: TextState): (t: TextState)
    ensures t.textSize == s.textSize && t.maxWidth == s.maxWidth && t.letterSpacing == s.letterSpacing && t.font == s.font
    ensures s.warnings <= t.warnings
    ensures "text-color" !in paint ==> t.textColor == InvalidColor
    ensures "text-color" in paint && paint["text-color"].Str? ==> t.textColor == ctx.parseColorText(paint["text-color"].s)
    ensures "text-halo-color" !in paint ==> t.bufferColor == InvalidColor
    ensures "text-halo-color" in paint && paint["text-halo-color"].Str? ==> t.bufferColor == ctx.parseColorText(paint["text-halo-color"].s)
    ensures "text-halo-width" !in paint ==> t.bufferSize == 0.0
    ensures "text-halo-width" in paint && IsNumber(paint["text-halo-width"]) ==>
      t.bufferSize == ToNumber(paint["text-halo-width"]) * ctx.pixelSizeConversionFactor
    ensures "text-halo-blur" !in paint ==> t.blur == 0.0
    ensures "text-halo-blur" in paint && IsNumber(paint["text-halo-blur"]) ==>
      t.blur == ToNumber(paint["text-halo-blur"]) * ctx.pixelSizeConversionFactor
    ensures "text-halo-blur" in paint && !IsNumber(paint["text-halo-blur"]) ==>
      t.blur == 0.0 && |t.warnings| > 0 && t.warnings[|t.warnings| - 1] == NonImplementedWarning("text-halo-width")
    ensures forall k :: k !in {LabelColor, BufferColor, BufferSize} ==> (k in t.props <==> k in s.props)
  {
    ReadHaloBlur(paint, ctx, ReadHaloWidth(paint, ctx, ReadTextColors(paint, ctx, s)))
  }

  /** A value set only when positive. */
  function IfPositive(x: real): (r: Option<real>)
    ensures r.Some? <==> x > 0.0
    ensures r.Some? ==> r.value == x
  {
    if x > 0.0 then Some(x) else None
  }

  /** The label expression: `text-field`, then `text-transform` when given. */
  function LabelExpression(layout: map<string, Json>): (r: Warned<LabelField>)
    requires "text-field" in layout
    ensures "text-transform" !in layout ==> r == TextField(layout["text-field"])
    ensures "text-transform" in layout ==>
      r == Warned(TextTransform(TextField(layout["text-field"]).value, ToText(layout["text-transform"])),
                  TextField(layout["text-field"]).warnings)
  {
    var field := TextField(layout["text-field"]);
    if "text-transform" in layout then Warned(TextTransform(field.value, ToText(layout["text-transform"])), field.warnings)
    else field
  }

  /** Labels follow lines for `symbol-placement: line`; otherwise they sit over points. */
  predicate OnLine(layout: map<string, Json>)
  {
    ToText(Get(layout, "symbol-placement")) == "line"
  }

  /**
   * The anchor text `text-anchor` gives and the data-defined quadrant it
   * sets: a string is the anchor; zoom stops (a list, or an object with
   * `stops`) give the numeric quadrant per zoom and their last stop's anchor.
   * An empty stops list is undefined in the source; here it gives no anchor.
   */
  function ReadAnchor(v: Json): (r: Setting<string>)
    ensures v.Str? ==> r == Setting(v.s, None, [])
    ensures v.List? && |v.items| > 0 ==>
      var w := ParseStringStops(v.items, AnchorConversionMap);
      r == Setting(if w.value.1.Some? then w.value.1.value else "", Some(FromExpression(w.value.0)), w.warnings)
    ensures v.Object? ==>
      var c := ParseInterpolateStringByZoom(v.fields, AnchorConversionMap);
      r == Setting(if c.default.Some? then c.default.value else "", Some(c.prop), c.warnings)
    ensures !v.Str? && !v.List? && !v.Object? ==> r == Setting("", None, [NonImplementedWarning("text-anchor")])
  {
    match v
    case Str(s) => Setting(s, None, [])
    case List(items) =>
      if |items| == 0 then Setting("", Some(Inactive), [])
      else
        var w := ParseStringStops(items, AnchorConversionMap);
        Setting(if w.value.1.Some? then w.value.1.value else "", Some(FromExpression(w.value.0)), w.warnings)
    case Object(fields) =>
      var c := ParseInterpolateStringByZoom(fields, AnchorConversionMap);
      Setting(if c.default.Some? then c.default.value else "", Some(c.prop), c.warnings)
    case _ => Setting("", None, [NonImplementedWarning("text-anchor")])
  }

  /** The quadrant an anchor selects; a label over a point is centred on it otherwise. */
  function QuadrantOf(anchor: string): (q: Quadrant)
    ensures anchor in AnchorConversionMap ==> AnchorConversionMap[anchor] == Int(Ordinal(q))
    ensures anchor !in AnchorConversionMap ==> q == Over
  {
    var a := AnchorQuadrant(anchor);
    if a.Some? then a.value else Over
  }

  /** Where a label goes: placement, geometry, quadrant, offset and the properties and warnings on the way. */
  datatype Position = Position(placement: Placement, geometry: GeometryType, quadrant: Quadrant, offset: (real, real),
                               props: Properties, warnings: seq<string>)

  /** `text-anchor` when given; no anchor otherwise. */
  function AnchorAt(layout: map<string, Json>): (r: Setting<string>)
    ensures "text-anchor" !in layout ==> r == Setting("", None, [])
    ensures "text-anchor" in layout && layout["text-anchor"].Str? ==> r == Setting(layout["text-anchor"].s, None, [])
    ensures "text-anchor" in layout ==> r == ReadAnchor(layout["text-anchor"])
  {
    if "text-anchor" in layout then ReadAnchor(layout["text-anchor"]) else Setting("", None, [])
  }

  /** `text-offset` in ems times the text size when given; no offset otherwise. */
  function OffsetAt(layout: map<string, Json>, textSize: real): (r: Setting<(real, real)>)
    ensures "text-offset" !in layout ==> r == Setting((0.0, 0.0), None, [])
    ensures "text-offset" in layout && layout["text-offset"].List? ==>
      var items := layout["text-offset"].items;
      r == Setting((ToNumber(At(items, 0)) * textSize, ToNumber(At(items, 1)) * textSize), None, [])
    ensures "text-offset" in layout ==> r == ReadPoint(layout["text-offset"], textSize)
  {
    if "text-offset" in layout then ReadPoint(layout["text-offset"], textSize) else Setting((0.0, 0.0), None, [])
  }

  /**
   * Placement: along lines for `symbol-placement: line` (anchor and offset
   * are then not read); otherwise over points, in the quadrant the anchor
   * selects and offset by `text-offset` in ems (times the text size).
   */
  function ReadPosition(layout: map<string, Json>, textSize: real, props: Properties): (p: Position)
    ensures OnLine(layout) ==> p == Position(Curved, LineGeometry, Over, (0.0, 0.0), props, [])
    ensures !OnLine(layout) ==> p.placement == OverPoint && p.geometry == PointGeometry
    ensures !OnLine(layout) && "text-anchor" in layout && layout["text-anchor"].Str? ==>
      p.quadrant == QuadrantOf(layout["text-anchor"].s)
    ensures !OnLine(layout) && "text-anchor" !in layout ==> p.quadrant == Over
    ensures !OnLine(layout) && "text-offset" in layout && layout["text-offset"].List? ==>
      var items := layout["text-offset"].items;
      p.offset == (ToNumber(At(items, 0)) * textSize, ToNumber(At(items, 1)) * textSize)
    ensures forall k :: k != OffsetQuad && k != OffsetXY ==> (k in p.props <==> k in props)
    ensures !OnLine(layout) ==>
      var anchor := AnchorAt(layout);
      var offset := OffsetAt(layout, textSize);
      && p.quadrant == QuadrantOf(anchor.value) && p.offset == offset.value
      && p.props == Apply(Apply(props, OffsetQuad, anchor), OffsetXY, offset)
      && p.warnings == anchor.warnings + offset.warnings
  {
    if OnLine(layout) then Position(Curved, LineGeometry, Over, (0.0, 0.0), props, [])
    else
      var anchor := AnchorAt(layout);
      var offset := OffsetAt(layout, textSize);
      Position(OverPoint, PointGeometry, QuadrantOf(anchor.value), offset.value,
               Apply(Apply(props, OffsetQuad, anchor), OffsetXY, offset), anchor.warnings + offset.warnings)
  }

  /** The whole text format: layout values first, then paint values. */
  function TextFormat(layout: map<string, Json>, paint: map<string, Json>, ctx: ConversionContext): TextState
  {
    ReadTextPaint(paint, ctx, ReadTextLayout(layout, ctx))
  }

  /**
   * The label settings of a symbol layer with a layout and a paint object:
   * the text format and wrap length from the text state, the label
   * expression, and the position.
   */
  function ReadLabel(layout: map<string, Json>, paint: map<string, Json>, ctx: ConversionContext): (r: Warned<LabelSettings>)
    requires "text-field" in layout
    ensures var s := TextFormat(layout, paint, ctx);
      && r.value.size == (if s.textSize >= 0.0 then Some(s.textSize) else None)
      && r.value.autoWrapLength == IfPositive(s.maxWidth)
      && r.value.letterSpacing == IfPositive(s.letterSpacing)
      && r.value.font == s.font
      && (r.value.color.Some? <==> s.textColor.valid)
      && (r.value.color.Some? ==> r.value.color.value == s.textColor)
      && (r.value.buffer.Some? <==> s.bufferSize > 0.0)
      && (r.value.buffer.Some? ==> r.value.buffer.value == Buffer(s.bufferSize, s.bufferColor, IfPositive(s.blur)))
    ensures var s := TextFormat(layout, paint, ctx);
      var position := ReadPosition(layout, s.textSize, s.props);
      && r.value.quadrant == position.quadrant && r.value.offset == position.offset && r.value.props == position.props
      && r.warnings == s.warnings + LabelExpression(layout).warnings + position.warnings
    ensures r.value.field == LabelExpression(layout).value
    ensures (r.value.placement, r.value.geometry) == (if OnLine(layout) then (Curved, LineGeometry) else (OverPoint, PointGeometry))
  {
    var s := TextFormat(layout, paint, ctx);
    var field := LabelExpression(layout);
    var position := ReadPosition(layout, s.textSize, s.props);
    var buffer := if s.bufferSize > 0.0 then Some(Buffer(s.bufferSize, s.bufferColor, IfPositive(s.blur))) else None;
    var settings := LabelSettings(field.value, position.placement, position.geometry, position.quadrant, position.offset,
                                  IfPositive(s.maxWidth), if s.textSize >= 0.0 then Some(s.textSize) else None, s.font,
                                  IfPositive(s.letterSpacing), if s.textColor.valid then Some(s.textColor) else None,
                                  buffer, position.props);
    Warned(settings, s.warnings + field.warnings + position.warnings)
  }

  /**
   * The icon of a labelled symbol layer: a raster marker for the
   * `icon-image` sprite, sized by the sprite's width, rotated by
   * `icon-rotate` and faded by `icon-opacity` (read only once the sprite is
   * found); nothing when the sprite is missing.
   */
  function ReadIcon(layout: map<string, Json>, paint: map<string, Json>, ctx: ConversionContext): (r: Warned<Option<RasterMarker>>)
    ensures "icon-image" !in layout ==> r == Warned(None, [])
    ensures "icon-image" in layout ==>
      var sprite := RetrieveSprite(ToText(layout["icon-image"]), ctx);
      && (r.value.Some? <==> sprite.value.Some?)
      && sprite.warnings <= r.warnings
    ensures r.value.Some? ==>
      var sprite := RetrieveSprite(ToText(layout["icon-image"]), ctx);
      && sprite.value.Some?
      && r.value.value.image == sprite.value
      && r.value.value.size.Some?
      && r.value.value.size.value == ctx.pixelSizeConversionFactor * (sprite.value.value.width as real)
    ensures "icon-image" in layout && RetrieveSprite(ToText(layout["icon-image"]), ctx).value.None? ==>
      r == Warned(None, RetrieveSprite(ToText(layout["icon-image"]), ctx).warnings)
    ensures r.value.Some? ==>
      var sprite := RetrieveSprite(ToText(layout["icon-image"]), ctx);
      var f := ctx.pixelSizeConversionFactor;
      var rotation := ReadNumberAt(layout, "icon-rotate", ctx, "icon-rotate", 1.0, f, 0.0, None, None);
      var opacity := ReadNumberAt(paint, "icon-opacity", ctx, "icon-opacity", 1.0, 100.0, -1.0, None, None);
      && r.value.value.angle == rotation.value
      && (r.value.value.opacity.Some? <==> opacity.value >= 0.0)
      && (r.value.value.opacity.Some? ==> r.value.value.opacity.value == opacity.value)
      && r.value.value.props == Apply(Apply(map[], Angle, rotation), Opacity, opacity)
      && r.warnings == sprite.warnings + rotation.warnings + opacity.warnings
  {
    if "icon-image" !in layout then Warned(None, [])
    else
      var sprite := RetrieveSprite(ToText(layout["icon-image"]), ctx);
      if sprite.value.None? then Warned(None, sprite.warnings)
      else
        var f := ctx.pixelSizeConversionFactor;
        var rotation := ReadNumberAt(layout, "icon-rotate", ctx, "icon-rotate", 1.0, f, 0.0, None, None);
        var opacity := ReadNumberAt(paint, "icon-opacity", ctx, "icon-opacity", 1.0, 100.0, -1.0, None, None);
        var props := Apply(Apply(map[], Angle, rotation), Opacity, opacity);
        var marker := RasterMarker(sprite.value, Some(f * (sprite.value.value.width as real)), rotation.value,
                                   if opacity.value >= 0.0 then Some(opacity.value) else None, props);
        Warned(Some(marker), sprite.warnings + rotation.warnings + opacity.warnings)
  }

  /** `symbol-spacing`, in pixels scaled by the conversion factor; -1 when not given. */
  function Spacing(layout: map<string, Json>, ctx: ConversionContext): (r: Setting<real>)
    ensures "symbol-spacing" !in layout ==> r.value == -1.0
    ensures "symbol-spacing" in layout && IsNumber(layout["symbol-spacing"]) ==>
      r.value == ToNumber(layout["symbol-spacing"]) * ctx.pixelSizeConversionFactor
    ensures "symbol-spacing" in layout ==>
      var f := ctx.pixelSizeConversionFactor;
      r == ReadNumber(layout["symbol-spacing"], ctx, "symbol-spacing", f, f, -1.0, None, None)
  {
    var f := ctx.pixelSizeConversionFactor;
    ReadNumberAt(layout, "symbol-spacing", ctx, "symbol-spacing", f, f, -1.0, None, None)
  }

  /**
   * parseSymbolLayerAsRenderer: markers along lines, only for
   * `symbol-placement: line`. A positive `symbol-spacing` is the marker
   * interval; without one the marker is drawn once, at the line's centre
   * (with a nominal interval of 1). The `icon-image` sprite is looked up
   * even when the layout names none.
   */
  function ParseSymbolLayerAsRenderer(layer: map<string, Json>, ctx: ConversionContext): (r: Warned<Option<SymbolRenderer>>)
    ensures "layout" !in layer ==> r == Warned(None, [MissingWarning(ToText(Get(layer, "id")), "layout")])
    ensures "layout" in layer ==> (r.value.Some? <==> OnLine(ToObject(layer["layout"])))
    ensures "layout" in layer && !OnLine(ToObject(layer["layout"])) ==> r.warnings == []
    ensures r.value.Some? ==>
      && r.value.value.MarkerLineRenderer?
      && (r.value.value.centralPoint <==> Spacing(ToObject(layer["layout"]), ctx).value <= 0.0)
      && (r.value.value.centralPoint ==> r.value.value.interval == 1.0)
      && (!r.value.value.centralPoint ==> r.value.value.interval == Spacing(ToObject(layer["layout"]), ctx).value > 0.0)
      && r.value.value.rotate == RotateMarkers(ToObject(layer["layout"]))
  {
    var id := ToText(Get(layer, "id"));
    if "layout" !in layer then Warned(None, [MissingWarning(id, "layout")])
    else
      var layout := ToObject(layer["layout"]);
      if !OnLine(layout) then Warned(None, [])
      else
        var line := LineRenderer(layout, ctx);
        Warned(Some(line.value), line.warnings)
  }

  /** The markers of a line-placed symbol layer, with the warnings of the spacing, the rotation and the sprite. */
  function LineRenderer(layout: map<string, Json>, ctx: ConversionContext): (r: Warned<SymbolRenderer>)
    ensures r.value.MarkerLineRenderer?
    ensures r.value.centralPoint <==> Spacing(layout, ctx).value <= 0.0
    ensures r.value.centralPoint ==> r.value.interval == 1.0
    ensures !r.value.centralPoint ==> r.value.interval == Spacing(layout, ctx).value > 0.0
    ensures r.value.rotate == RotateMarkers(layout)
    ensures var f := ctx.pixelSizeConversionFactor;
      var spacing := Spacing(layout, ctx);
      var rotation := ReadNumberAt(layout, "icon-rotate", ctx, "icon-rotate", 1.0, f, 0.0, None, None);
      var sprite := RetrieveSprite(ToText(Get(layout, "icon-image")), ctx);
      && r.value.marker.image == sprite.value
      && (r.value.marker.size.Some? <==> sprite.value.Some?)
      && (r.value.marker.size.Some? ==> r.value.marker.size.value == f * (sprite.value.value.width as real))
      && r.value.marker.angle == rotation.value && r.value.marker.opacity.None?
      && r.value.marker.props == Apply(map[], Angle, rotation)
      && r.value.props == Apply(map[], Interval, spacing)
      && r.warnings == spacing.warnings + rotation.warnings + sprite.warnings
  {
    var f := ctx.pixelSizeConversionFactor;
    var spacing := Spacing(layout, ctx);
    var rotation := ReadNumberAt(layout, "icon-rotate", ctx, "icon-rotate", 1.0, f, 0.0, None, None);
    var sprite := RetrieveSprite(ToText(Get(layout, "icon-image")), ctx);
    var marker := RasterMarker(sprite.value,
                               if sprite.value.Some? then Some(f * (sprite.value.value.width as real)) else None,
                               rotation.value, None, Apply(map[], Angle, rotation));
    var line := MarkerLineRenderer(RotateMarkers(layout), if spacing.value > 0.0 then spacing.value else 1.0,
                                   spacing.value <= 0.0, Apply(map[], Interval, spacing), marker);
    Warned(line, spacing.warnings + rotation.warnings + sprite.warnings)
  }

  /**
   * The markers along lines: the `icon-image` sprite sized by its width,
   * rotated by `icon-rotate`, with the rotation as data-defined angle and
   * no opacity.
   */
  lemma RendererMarker(layer: map<string, Json>, ctx: ConversionContext)
    requires "layout" in layer && OnLine(ToObject(layer["layout"]))
    ensures var r := ParseSymbolLayerAsRenderer(layer, ctx);
      var layout := ToObject(layer["layout"]);
      var f := ctx.pixelSizeConversionFactor;
      var rotation := ReadNumberAt(layout, "icon-rotate", ctx, "icon-rotate", 1.0, f, 0.0, None, None);
      var sprite := RetrieveSprite(ToText(Get(layout, "icon-image")), ctx);
      && r.value.Some?
      && var marker := r.value.value.marker;
      && marker.image == sprite.value
      && (marker.size.Some? <==> sprite.value.Some?)
      && (marker.size.Some? ==> marker.size.value == f * (sprite.value.value.width as real))
      && marker.angle == rotation.value && marker.opacity.None?
      && marker.props == Apply(map[], Angle, rotation)
  {
    var line := LineRenderer(ToObject(layer["layout"]), ctx);
    assert ParseSymbolLayerAsRenderer(layer, ctx).value == Some(line.value);
  }

  /**
   * The spacing as the data-defined interval of the line renderer, and the
   * warnings of the spacing, the rotation and the sprite, in that order.
   */
  lemma RendererSettings(layer: map<string, Json>, ctx: ConversionContext)
    requires "layout" in layer && OnLine(ToObject(layer["layout"]))
    ensures var r := ParseSymbolLayerAsRenderer(layer, ctx);
      var layout := ToObject(layer["layout"]);
      var f := ctx.pixelSizeConversionFactor;
      var spacing := Spacing(layout, ctx);
      var rotation := ReadNumberAt(layout, "icon-rotate", ctx, "icon-rotate", 1.0, f, 0.0, None, None);
      var sprite := RetrieveSprite(ToText(Get(layout, "icon-image")), ctx);
      && r.value.Some?
      && r.value.value.props == Apply(map[], Interval, spacing)
      && r.warnings == spacing.warnings + rotation.warnings + sprite.warnings
  {
    var line := LineRenderer(ToObject(layer["layout"]), ctx);
    assert ParseSymbolLayerAsRenderer(layer, ctx) == Warned(Some(line.value), line.warnings);
  }

  /** What a symbol layer converts to: something to draw, labels, both or neither. */
  datatype SymbolStyles = SymbolStyles(renderer: Option<SymbolRenderer>, labeling: Option<LabelSettings>)

  /**
   * parseSymbolLayer: without a layout, nothing and a warning; without a
   * `text-field`, only what parseSymbolLayerAsRenderer gives; without a
   * paint object, nothing and a warning; otherwise labels, plus an icon when
   * its sprite is found.
   */
  function ParseSymbolLayer(layer: map<string, Json>, ctx: ConversionContext): (r: Warned<SymbolStyles>)
    ensures "layout" !in layer ==> r == Warned(SymbolStyles(None, None), [MissingWarning(ToText(Get(layer, "id")), "layout")])
    ensures "layout" in layer && "text-field" !in ToObject(layer["layout"]) ==>
      var asRenderer := ParseSymbolLayerAsRenderer(layer, ctx);
      r == Warned(SymbolStyles(asRenderer.value, None), asRenderer.warnings)
    ensures "layout" in layer && "text-field" in ToObject(layer["layout"]) && "paint" !in layer ==>
      r == Warned(SymbolStyles(None, None), [MissingWarning(ToText(Get(layer, "id")), "paint")])
    ensures r.value.labeling.Some? <==> "layout" in layer && "text-field" in ToObject(layer["layout"]) && "paint" in layer
    ensures r.value.labeling.Some? ==>
      r.value.labeling.value == ReadLabel(ToObject(layer["layout"]), ToObject(layer["paint"]), ctx).value
      && (r.value.renderer.Some? <==> ReadIcon(ToObject(layer["layout"]), ToObject(layer["paint"]), ctx).value.Some?)
    ensures r.value.labeling.Some? && r.value.renderer.Some? ==> r.value.renderer.value.IconRenderer?
    ensures r.value.labeling.Some? ==>
      var layout := ToObject(layer["layout"]);
      var paint := ToObject(layer["paint"]);
      var icon := ReadIcon(layout, paint, ctx);
      && (icon.value.Some? ==> r.value.renderer == Some(IconRenderer(icon.value.value)))
      && r.warnings == ReadLabel(layout, paint, ctx).warnings + icon.warnings
  {
    var id := ToText(Get(layer, "id"));
    if "layout" !in layer then Warned(SymbolStyles(None, None), [MissingWarning(id, "layout")])
    else
      var layout := ToObject(layer["layout"]);
      if "text-field" !in layout then
        var asRenderer := ParseSymbolLayerAsRenderer(layer, ctx);
        Warned(SymbolStyles(asRenderer.value, None), asRenderer.warnings)
      else if "paint" !in layer then Warned(SymbolStyles(None, None), [MissingWarning(id, "paint")])
      else
        var paint := ToObject(layer["paint"]);
        var labelled := ReadLabel(layout, paint, ctx);
        var icon := ReadIcon(layout, paint, ctx);
        var renderer := if icon.value.Some? then Some(IconRenderer(icon.value.value)) else None;
        Warned(SymbolStyles(renderer, Some(labelled.value)), labelled.warnings + icon.warnings)
  }

  // ---------------------------------------------------------------------
  // Properties

  /** A labelled layer: it has a layout with a `text-field`, and a paint object. */
  predicate Labelled(layer: map<string, Json>)
  {
    "layout" in layer && "text-field" in ToObject(layer["layout"]) && "paint" in layer
  }

  /** Labels placed along lines label line geometry, in the default quadrant, with no offset. */
  lemma LinePlacementIgnoresAnchor(layer: map<string, Json>, ctx: ConversionContext)
    requires Labelled(layer) && OnLine(ToObject(layer["layout"]))
    ensures var r := ParseSymbolLayer(layer, ctx);
      && r.value.labeling.Some?
      && r.value.labeling.value.placement == Curved
      && r.value.labeling.value.geometry == LineGeometry
      && r.value.labeling.value.quadrant == Over
      && r.value.labeling.value.offset == (0.0, 0.0)
  {
    var layout := ToObject(layer["layout"]);
    var paint := ToObject(layer["paint"]);
    var s := TextFormat(layout, paint, ctx);
    var p := ReadPosition(layout, s.textSize, s.props);
    assert ReadLabel(layout, paint, ctx).value.quadrant == p.quadrant;
    assert ReadLabel(layout, paint, ctx).value.offset == p.offset;
  }

  /**
   * A text anchor over a point puts the label in the quadrant opposite the
   * anchored box position, which is also the number the anchor has in the
   * table used for anchors given per zoom.
   */
  lemma AnchorPlacesLabel(layer: map<string, Json>, ctx: ConversionContext, row: nat, col: nat)
    requires Labelled(layer) && !OnLine(ToObject(layer["layout"]))
    requires row < 3 && col < 3
    requires "text-anchor" in ToObject(layer["layout"]) && ToObject(layer["layout"])["text-anchor"] == Str(AnchorName(row, col))
    ensures var r := ParseSymbolLayer(layer, ctx);
      && r.value.labeling.Some?
      && r.value.labeling.value.placement == OverPoint
      && r.value.labeling.value.quadrant == QuadrantAt(2 - row, 2 - col)
      && AnchorConversionMap[AnchorName(row, col)] == Int(Ordinal(r.value.labeling.value.quadrant))
  {
    var layout := ToObject(layer["layout"]);
    var paint := ToObject(layer["paint"]);
    var s := TextFormat(layout, paint, ctx);
    var p := ReadPosition(layout, s.textSize, s.props);
    assert p.quadrant == QuadrantOf(AnchorName(row, col));
    assert ReadLabel(layout, paint, ctx).value.quadrant == p.quadrant;
  }

  /** Without `text-size` labels are 16 units high. */
  lemma TextSizeDefaultsTo16(layer: map<string, Json>, ctx: ConversionContext)
    requires Labelled(layer) && "text-size" !in ToObject(layer["layout"])
    ensures var r := ParseSymbolLayer(layer, ctx);
      r.value.labeling.Some? && r.value.labeling.value.size == Some(16.0)
  {
    var layout := ToObject(layer["layout"]);
    var paint := ToObject(layer["paint"]);
    assert TextFormat(layout, paint, ctx).textSize == 16.0;
  }

  /** A positive `text-max-width` in ems wraps labels at 1.4 characters per em. */
  lemma MaxWidthInCharacters(layer: map<string, Json>, ctx: ConversionContext)
    requires Labelled(layer)
    requires "text-max-width" in ToObject(layer["layout"]) && IsNumber(ToObject(layer["layout"])["text-max-width"])
    requires ToNumber(ToObject(layer["layout"])["text-max-width"]) > 0.0
    ensures var r := ParseSymbolLayer(layer, ctx);
      && r.value.labeling.Some?
      && r.value.labeling.value.autoWrapLength == Some(ToNumber(ToObject(layer["layout"])["text-max-width"]) * 1.4)
  {
    var layout := ToObject(layer["layout"]);
    var paint := ToObject(layer["paint"]);
    assert TextFormat(layout, paint, ctx).maxWidth == ToNumber(layout["text-max-width"]) * EmToChars;
  }

  /**
   * A symbol layer without text along lines and without `symbol-spacing`
   * draws its marker once, at the centre of each line.
   */
  lemma UnspacedMarkersAtCentre(layer: map<string, Json>, ctx: ConversionContext)
    requires "layout" in layer && "text-field" !in ToObject(layer["layout"])
    requires OnLine(ToObject(layer["layout"])) && "symbol-spacing" !in ToObject(layer["layout"])
    ensures var r := ParseSymbolLayer(layer, ctx);
      && r.value.labeling.None?
      && r.value.renderer.Some? && r.value.renderer.value.MarkerLineRenderer?
      && r.value.renderer.value.centralPoint && r.value.renderer.value.interval == 1.0
  {
  }
}

/**
 * parseFillLayer: a Mapbox GL `fill` layer becomes a simple fill symbol,
 * optionally topped by a raster fill for its pattern sprite. The paint
 * values are read in the source's order (colour, outline colour, opacity,
 * translate, pattern), each stage changing only what it reads.
 */
module Fill {
  import opened Json
  import opened Context
  import opened Interpolation
  import opened Settings

  /** The raster fill drawn for a `fill-pattern` sprite. */
  datatype PatternFill = PatternFill(image: SpriteImage, opacity: Option<real>, props: Properties)

  /**
   * The resulting fill symbol: its data-defined properties, the brush colour
   * (none: no brush), the pen colour (none: no pen), the symbol opacity when
   * set, the offset and the pattern layer when there is one.
   */
  datatype FillSymbol = FillSymbol(
    props: Properties,
    brush: Option<Color>,
    pen: Option<Color>,
    opacity: Option<real>,
    offset: (real, real),
    pattern: Option<PatternFill>)

  /** What the converter has read so far. -1 marks an opacity not given. */
  datatype FillState = FillState(
    props: Properties,
    rasterProps: Properties,
    fillColor: Color,
    outlineColor: Color,
    fillOpacity: real,
    rasterOpacity: real,
    translate: (real, real),
    warnings: seq<string>)

  /** `fill-color`: the colour, or the data-defined fill colour with the first stop's colour. */
  function ReadFillColor(paint: map<string, Json>, ctx: ConversionContext): (s: FillState)
    ensures "fill-color" !in paint ==> s.props == map[] && !s.fillColor.valid && s.warnings == []
    ensures var c := ReadColorAt(paint, "fill-color", ctx, "color");
      s.fillColor == c.value && s.props == Apply(map[], FillColor, c) && s.warnings == c.warnings
    ensures s.props.Keys <= {FillColor}
    ensures s.fillOpacity == -1.0 && s.rasterOpacity == -1.0 && s.rasterProps == map[] && !s.outlineColor.valid
  {
    var c := ReadColorAt(paint, "fill-color", ctx, "color");
    FillState(Apply(map[], FillColor, c), map[], c.value, InvalidColor, -1.0, -1.0, (0.0, 0.0), c.warnings)
  }

  /**
   * `fill-outline-color`; without it the outline takes the fill colour when
   * that is valid, and otherwise copies a data-defined fill colour.
   */
  function ReadOutline(paint: map<string, Json>, ctx: ConversionContext, s: FillState): (t: FillState)
    ensures "fill-outline-color" !in paint && s.fillColor.valid ==> t == s.(outlineColor := s.fillColor)
    ensures "fill-outline-color" !in paint && !s.fillColor.valid && FillColor in s.props ==>
      t == s.(props := s.props[StrokeColor := s.props[FillColor]])
    ensures "fill-outline-color" !in paint && !s.fillColor.valid && FillColor !in s.props ==> t == s
    ensures "fill-outline-color" in paint ==>
      var c := ReadColor(paint["fill-outline-color"], ctx, "color");
      && t.outlineColor == c.value
      && t.props == Apply(s.props, StrokeColor, c)
      && t.warnings == s.warnings + c.warnings
    ensures t.fillColor == s.fillColor && t.fillOpacity == s.fillOpacity && t.rasterOpacity == s.rasterOpacity
    ensures t.rasterProps == s.rasterProps && t.translate == s.translate
    ensures s.warnings <= t.warnings
    ensures forall k :: k != StrokeColor ==> (k in t.props <==> k in s.props)
    ensures forall k :: k != StrokeColor && k in t.props ==> t.props[k] == s.props[k]
  {
    if "fill-outline-color" !in paint then
      if s.fillColor.valid then s.(outlineColor := s.fillColor)
      else if FillColor in s.props then s.(props := SetProperty(s.props, StrokeColor, PropertyOf(s.props, FillColor)))
      else s
    else
      var c := ReadColor(paint["fill-outline-color"], ctx, "color");
      s.(props := Apply(s.props, StrokeColor, c), outlineColor := c.value, warnings := s.warnings + c.warnings)
  }

  /**
   * `fill-opacity`: a number is the symbol opacity (and the pattern's). Zoom
   * stops or an `interpolate` expression rewrite the fill and outline colours'
   * alpha and the pattern's opacity, unless the fill colour is already
   * data-defined, in which case the layer only warns.
   */
  function ReadFillOpacity(paint: map<string, Json>, ctx: ConversionContext, id: string, s: FillState): (t: FillState)
    ensures "fill-opacity" !in paint ==> t == s
    ensures "fill-opacity" in paint ==> t == FillOpacity(paint["fill-opacity"], ctx, id, s)
    ensures t.fillColor == s.fillColor && t.outlineColor == s.outlineColor && t.translate == s.translate
    ensures s.warnings <= t.warnings
    ensures forall k :: k != FillColor && k != StrokeColor ==> (k in t.props <==> k in s.props)
  {
    if "fill-opacity" in paint then FillOpacity(paint["fill-opacity"], ctx, id, s) else s
  }

  /** The `fill-opacity` value `v`, read over the state `s`. */
  function FillOpacity(v: Json, ctx: ConversionContext, id: string, s: FillState): (t: FillState)
    ensures IsNumber(v) ==> t == s.(fillOpacity := ToNumber(v), rasterOpacity := ToNumber(v))
    ensures (v.Object? || v.List?) && FillColor in s.props ==>
      t == s.(warnings := s.warnings + [OpacityConflictWarning(id, "fill color")])
    ensures (v.Object? || v.List?) && FillColor !in s.props ==> t == FadeColors(v, ctx, s)
    ensures !IsNumber(v) && !v.Object? && !v.List? ==> t == s.(warnings := s.warnings + [NonImplementedWarning("opacity")])
    ensures t.fillColor == s.fillColor && t.outlineColor == s.outlineColor && t.translate == s.translate
    ensures s.warnings <= t.warnings
    ensures forall k :: k != FillColor && k != StrokeColor ==> (k in t.props <==> k in s.props)
  {
    if IsNumber(v) then s.(fillOpacity := ToNumber(v), rasterOpacity := ToNumber(v))
    else if v.Object? || v.List? then
      if FillColor in s.props then s.(warnings := s.warnings + [OpacityConflictWarning(id, "fill color")])
      else FadeColors(v, ctx, s)
    else s.(warnings := s.warnings + [NonImplementedWarning("opacity")])
  }

  /**
   * Opacity stops: the fill and outline colours get their alpha from the
   * stops, and the pattern its opacity, with every warning kept in order.
   */
  function FadeColors(v: Json, ctx: ConversionContext, s: FillState): (t: FillState)
    requires v.Object? || v.List?
    ensures FillColor in t.props <==> OpacityProperty(v, ctx, AlphaOf(s.fillColor)).value.Expression?
    ensures FillColor in t.props ==> t.props[FillColor] == OpacityProperty(v, ctx, AlphaOf(s.fillColor)).value.text
    ensures StrokeColor in t.props <==> OpacityProperty(v, ctx, AlphaOf(s.outlineColor)).value.Expression?
    ensures StrokeColor in t.props ==> t.props[StrokeColor] == OpacityProperty(v, ctx, AlphaOf(s.outlineColor)).value.text
    ensures v.Object? ==>
      var c := ParseInterpolateByZoom(v.fields, 100.0);
      && (Opacity in t.rasterProps <==> c.prop.Expression?)
      && (Opacity in t.rasterProps ==> t.rasterProps[Opacity] == c.prop.text)
      && t.rasterOpacity == (if c.default.Some? then c.default.value else s.rasterOpacity)
    ensures v.List? ==>
      var c := ParseInterpolateListByZoom(v.items, NumericType, ctx, 100.0, 255);
      && (Opacity in t.rasterProps <==> c.prop.Expression?)
      && (Opacity in t.rasterProps ==> t.rasterProps[Opacity] == c.prop.text)
      && t.rasterOpacity == (if NumberOf(c.default).Some? then NumberOf(c.default).value else s.rasterOpacity)
    ensures t.warnings == s.warnings + OpacityProperty(v, ctx, AlphaOf(s.fillColor)).warnings
                          + OpacityProperty(v, ctx, AlphaOf(s.outlineColor)).warnings
                          + ReadNumber(v, ctx, "opacity", 1.0, 100.0, s.rasterOpacity, None, None).warnings
    ensures t.fillColor == s.fillColor && t.outlineColor == s.outlineColor && t.translate == s.translate
    ensures t.fillOpacity == s.fillOpacity
    ensures forall k :: k != FillColor && k != StrokeColor ==> (k in t.props <==> k in s.props)
  {
    var fill := OpacityProperty(v, ctx, AlphaOf(s.fillColor));
    var outline := OpacityProperty(v, ctx, AlphaOf(s.outlineColor));
    var raster := ReadNumber(v, ctx, "opacity", 1.0, 100.0, s.rasterOpacity, None, None);
    s.(props := SetProperty(SetProperty(s.props, FillColor, fill.value), StrokeColor, outline.value),
       rasterProps := Apply(s.rasterProps, Opacity, raster),
       rasterOpacity := raster.value,
       warnings := s.warnings + fill.warnings + outline.warnings + raster.warnings)
  }

  /** `fill-translate`, in pixels scaled by the conversion factor. */
  function ReadTranslate(paint: map<string, Json>, ctx: ConversionContext, s: FillState): (t: FillState)
    ensures "fill-translate" !in paint ==> t == s
    ensures "fill-translate" in paint ==> t == Translate(paint["fill-translate"], ctx, s)
    ensures t.fillColor == s.fillColor && t.outlineColor == s.outlineColor
    ensures t.fillOpacity == s.fillOpacity && t.rasterOpacity == s.rasterOpacity && t.rasterProps == s.rasterProps
    ensures s.warnings <= t.warnings
    ensures forall k :: k != Offset ==> (k in t.props <==> k in s.props)
    ensures forall k :: k != Offset && k in t.props ==> t.props[k] == s.props[k]
  {
    if "fill-translate" in paint then Translate(paint["fill-translate"], ctx, s) else s
  }

  /**
   * The `fill-translate` value `v`: a list gives its first two numbers, zoom
   * stops the offset property and the first stop's point, any other shape a
   * warning.
   */
  function Translate(v: Json, ctx: ConversionContext, s: FillState): (t: FillState)
    ensures v.List? ==>
      t == s.(translate := (ToNumber(At(v.items, 0)) * ctx.pixelSizeConversionFactor, ToNumber(At(v.items, 1)) * ctx.pixelSizeConversionFactor))
    ensures v.Object? ==>
      var c := ParseInterpolatePointByZoom(v.fields, ctx.pixelSizeConversionFactor);
      && t.translate == (if c.default.Some? then c.default.value else (0.0, 0.0))
      && t.props == SetProperty(s.props, Offset, c.prop)
      && t.warnings == s.warnings + c.warnings
    ensures !v.List? && !v.Object? ==> t == s.(warnings := s.warnings + [NonImplementedWarning("fill-translate")])
    ensures t.fillColor == s.fillColor && t.outlineColor == s.outlineColor
    ensures t.fillOpacity == s.fillOpacity && t.rasterOpacity == s.rasterOpacity && t.rasterProps == s.rasterProps
    ensures s.warnings <= t.warnings
    ensures forall k :: k != Offset ==> (k in t.props <==> k in s.props)
    ensures forall k :: k != Offset && k in t.props ==> t.props[k] == s.props[k]
  {
    if v.List? then
      s.(translate := (ToNumber(At(v.items, 0)) * ctx.pixelSizeConversionFactor, ToNumber(At(v.items, 1)) * ctx.pixelSizeConversionFactor))
    else if v.Object? then
      var p := ReadPoint(v, ctx.pixelSizeConversionFactor);
      s.(props := Apply(s.props, Offset, p), translate := p.value, warnings := s.warnings + p.warnings)
    else s.(warnings := s.warnings + [NonImplementedWarning("fill-translate")])
  }

  /**
   * `fill-pattern`: only a sprite name is used; zoom stops and any other
   * shape are ignored without a warning.
   */
  function ReadPattern(paint: map<string, Json>, ctx: ConversionContext, s: FillState): (r: Warned<Option<PatternFill>>)
    ensures r.value.Some? ==> "fill-pattern" in paint && paint["fill-pattern"].Str?
    ensures !("fill-pattern" in paint && paint["fill-pattern"].Str?) ==> r == Warned(None, [])
    ensures "fill-pattern" in paint && paint["fill-pattern"].Str? ==>
      var sprite := RetrieveSprite(paint["fill-pattern"].s, ctx);
      && r.warnings == sprite.warnings
      && (r.value.Some? <==> sprite.value.Some?)
      && (r.value.Some? ==> r.value.value.image == sprite.value.value && r.value.value.props == s.rasterProps)
    ensures r.value.Some? ==> (r.value.value.opacity.Some? <==> s.rasterOpacity >= 0.0)
    ensures r.value.Some? && r.value.value.opacity.Some? ==> r.value.value.opacity.value == s.rasterOpacity
  {
    if "fill-pattern" in paint && paint["fill-pattern"].Str? then
      var sprite := RetrieveSprite(paint["fill-pattern"].s, ctx);
      if sprite.value.Some? then
        Warned(Some(PatternFill(sprite.value.value, if s.rasterOpacity >= 0.0 then Some(s.rasterOpacity) else None, s.rasterProps)), sprite.warnings)
      else Warned(None, sprite.warnings)
    else Warned(None, [])
  }

  /** A valid colour, or none for the invalid one. */
  function ValidColor(c: Color): (r: Option<Color>)
    ensures r.Some? <==> c.valid
    ensures r.Some? ==> r.value == c
  {
    if c.valid then Some(c) else None
  }

  /** The state after every paint value but the pattern is read. */
  function ReadFillPaint(paint: map<string, Json>, ctx: ConversionContext, id: string): FillState
  {
    ReadTranslate(paint, ctx, ReadFillOpacity(paint, ctx, id, ReadOutline(paint, ctx, ReadFillColor(paint, ctx))))
  }

  /**
   * parseFillLayer: nothing but a warning without a `paint` object;
   * otherwise a fill symbol with no brush unless the fill colour is valid,
   * no pen unless the outline colour is valid, and the opacity only when a
   * number other than -1 was given.
   */
  function ParseFillLayer(layer: map<string, Json>, ctx: ConversionContext): (r: Warned<Option<FillSymbol>>)
    ensures r.value.None? <==> "paint" !in layer
    ensures r.value.None? ==> r.warnings == [MissingWarning(ToText(Get(layer, "id")), "paint")]
    ensures r.value.Some? ==>
      var paint := ToObject(layer["paint"]);
      var s := ReadFillPaint(paint, ctx, ToText(Get(layer, "id")));
      && r.value.value.brush == ValidColor(s.fillColor)
      && r.value.value.pen == ValidColor(s.outlineColor)
      && (r.value.value.opacity.Some? <==> s.fillOpacity != -1.0)
      && r.value.value.props == s.props
      && (r.value.value.opacity.Some? ==> r.value.value.opacity.value == s.fillOpacity)
      && r.value.value.offset == s.translate
      && r.value.value.pattern == ReadPattern(paint, ctx, s).value
      && r.warnings == s.warnings + ReadPattern(paint, ctx, s).warnings
  {
    var id := ToText(Get(layer, "id"));
    if "paint" !in layer then Warned(None, [MissingWarning(id, "paint")])
    else
      var paint := ToObject(layer["paint"]);
      var s := ReadFillPaint(paint, ctx, id);
      var pattern := ReadPattern(paint, ctx, s);
      var symbol := FillSymbol(s.props, ValidColor(s.fillColor), ValidColor(s.outlineColor),
                               if s.fillOpacity != -1.0 then Some(s.fillOpacity) else None, s.translate, pattern.value);
      Warned(Some(symbol), s.warnings + pattern.warnings)
  }

  // ---------------------------------------------------------------------
  // Properties

  /** Without any colour the fill draws neither brush nor pen. */
  lemma NoColorsNoBrushNoPen(layer: map<string, Json>, ctx: ConversionContext)
    requires "paint" in layer
    requires "fill-color" !in ToObject(layer["paint"]) && "fill-outline-color" !in ToObject(layer["paint"])
    ensures var r := ParseFillLayer(layer, ctx);
      r.value.Some? && r.value.value.brush.None? && r.value.value.pen.None?
  {
  }

  /** Without an outline colour, a valid fill colour is also the outline colour. */
  lemma OutlineDefaultsToFill(layer: map<string, Json>, ctx: ConversionContext)
    requires "paint" in layer
    requires "fill-outline-color" !in ToObject(layer["paint"])
    requires ReadColorAt(ToObject(layer["paint"]), "fill-color", ctx, "color").value.valid
    ensures var r := ParseFillLayer(layer, ctx);
      r.value.Some? && r.value.value.pen == r.value.value.brush && r.value.value.brush.Some?
  {
  }

  /**
   * Without an outline colour, a data-defined fill colour whose fallback is
   * invalid is also the data-defined outline colour, whatever the opacity and
   * the translation.
   */
  lemma OutlineInheritsDataDefinedFill(layer: map<string, Json>, ctx: ConversionContext)
    requires "paint" in layer
    requires var paint := ToObject(layer["paint"]);
      "fill-outline-color" !in paint
    requires var c := ReadColorAt(ToObject(layer["paint"]), "fill-color", ctx, "color");
      !c.value.valid && c.prop.Some? && c.prop.value.Expression?
    ensures var r := ParseFillLayer(layer, ctx);
      && r.value.Some?
      && FillColor in r.value.value.props && StrokeColor in r.value.value.props
      && r.value.value.props[StrokeColor] == r.value.value.props[FillColor]
      && r.value.value.pen.None?
  {
    var paint := ToObject(layer["paint"]);
    var id := ToText(Get(layer, "id"));
    var s1 := ReadFillColor(paint, ctx);
    var s2 := ReadOutline(paint, ctx, s1);
    assert FillColor in s2.props && s2.props[StrokeColor] == s2.props[FillColor] && !s2.outlineColor.valid;
    var s3 := ReadFillOpacity(paint, ctx, id, s2);
    if "fill-opacity" in paint && (paint["fill-opacity"].Object? || paint["fill-opacity"].List?) {
      OpacityConflictStage(paint, ctx, id, s2);
    }
    assert s3.props == s2.props && !s3.outlineColor.valid;
    var s4 := ReadTranslate(paint, ctx, s3);
    assert s4.props[StrokeColor] == s4.props[FillColor] && !s4.outlineColor.valid;
  }

  /**
   * An opacity given per zoom never overwrites a fill colour that is already
   * data-defined: the colour expression stays and the layer warns.
   */
  lemma OpacityKeepsDataDefinedColor(paint: map<string, Json>, ctx: ConversionContext, id: string)
    requires "fill-opacity" in paint && (paint["fill-opacity"].Object? || paint["fill-opacity"].List?)
    requires FillColor in ReadFillColor(paint, ctx).props
    ensures var s := ReadFillPaint(paint, ctx, id);
      && FillColor in s.props
      && s.props[FillColor] == ReadFillColor(paint, ctx).props[FillColor]
      && OpacityConflictWarning(id, "fill color") in s.warnings
  {
    var s1 := ReadFillColor(paint, ctx);
    var s2 := ReadOutline(paint, ctx, s1);
    assert FillColor in s2.props && s2.props[FillColor] == s1.props[FillColor];
    OpacityConflictStage(paint, ctx, id, s2);
    var s3 := ReadFillOpacity(paint, ctx, id, s2);
    TranslateKeepsWarning(paint, ctx, s3, |s2.warnings|);
  }

  lemma OpacityConflictStage(paint: map<string, Json>, ctx: ConversionContext, id: string, s: FillState)
    requires "fill-opacity" in paint && (paint["fill-opacity"].Object? || paint["fill-opacity"].List?)
    requires FillColor in s.props
    ensures var t := ReadFillOpacity(paint, ctx, id, s);
      t.props == s.props && t.warnings == s.warnings + [OpacityConflictWarning(id, "fill color")]
  {
  }

  lemma TranslateKeepsWarning(paint: map<string, Json>, ctx: ConversionContext, s: FillState, i: nat)
    requires i < |s.warnings|
    ensures var t := ReadTranslate(paint, ctx, s);
      i < |t.warnings| && t.warnings[i] == s.warnings[i]
  {
  }
}

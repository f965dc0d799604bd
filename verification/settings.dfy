/**
 * The reading patterns every layer converter repeats for one paint or
 * layout value: a number (a constant, zoom stops or an `interpolate`
 * expression), a colour (the same three forms plus a colour string), and
 * the sprite lookup behind icons and fill patterns. Each reader yields the
 * plain value the symbol gets, the data-defined property it sets (if any)
 * and the warnings it pushes.
 */
module Settings {
  import opened Text
  import opened Json
  import opened Context
  import opened Colors
  import opened Interpolation

  /** What reading one value gives: the plain value, the property to set (none: left alone) and the warnings. */
  datatype Setting<T> = Setting(value: T, prop: Option<Property>, warnings: seq<string>)

  /** The warning for a value of a shape a setting does not handle; `what` names the setting. */
  function NonImplementedWarning(what: string): string
  {
    "Skipping non-implemented " + what + " expression"
  }

  /** Stores a setting's property, if it has one, under `key`. */
  function Apply<T>(props: Properties, key: PropertyKey, s: Setting<T>): (r: Properties)
    ensures s.prop.None? ==> r == props
    ensures s.prop.Some? ==> r == SetProperty(props, key, s.prop.value)
  {
    if s.prop.Some? then SetProperty(props, key, s.prop.value) else props
  }

  // ---------------------------------------------------------------------
  // Numbers

  /** The number an `interpolate` expression hands back, if it hands back a number. */
  function NumberOf(f: Option<Fallback>): Option<real>
  {
    if f.Some? && f.value.NumberFallback? then Some(f.value.number) else None
  }

  /**
   * A numeric setting. A number is scaled by `constant`. Zoom stops and an
   * `interpolate` expression are compiled with `stops` as the multiplier;
   * before compiling, the value is reset to `onMap` / `onList` where the
   * source resets it, and the compiled default (the first stop's value)
   * then replaces it. Any other shape keeps `init` and warns.
   */
  function ReadNumber(v: Json, ctx: ConversionContext, what: string, constant: real, stops: real,
                      init: real, onMap: Option<real>, onList: Option<real>): (r: Setting<real>)
    ensures IsNumber(v) ==> r == Setting(ToNumber(v) * constant, None, [])
    ensures v.Object? ==>
      var c := ParseInterpolateByZoom(v.fields, stops);
      && r.prop == Some(c.prop) && r.warnings == c.warnings
      && r.value == (if c.default.Some? then c.default.value else if onMap.Some? then onMap.value else init)
    ensures v.List? ==>
      var c := ParseInterpolateListByZoom(v.items, NumericType, ctx, stops, 255);
      && r.prop == Some(c.prop) && r.warnings == c.warnings
      && r.value == (if NumberOf(c.default).Some? then NumberOf(c.default).value else if onList.Some? then onList.value else init)
    ensures !IsNumber(v) && !v.Object? && !v.List? ==> r == Setting(init, None, [NonImplementedWarning(what)])
  {
    match v
    case Int(_) => Setting(ToNumber(v) * constant, None, [])
    case Num(_) => Setting(ToNumber(v) * constant, None, [])
    case Object(fields) =>
      var reset := if onMap.Some? then onMap.value else init;
      var c := ParseInterpolateByZoom(fields, stops);
      Setting(if c.default.Some? then c.default.value else reset, Some(c.prop), c.warnings)
    case List(items) =>
      var reset := if onList.Some? then onList.value else init;
      var c := ParseInterpolateListByZoom(items, NumericType, ctx, stops, 255);
      var d := NumberOf(c.default);
      Setting(if d.Some? then d.value else reset, Some(c.prop), c.warnings)
    case _ => Setting(init, None, [NonImplementedWarning(what)])
  }

  /**
   * An optional numeric setting: absent from `m`, the value stays `init`,
   * nothing is set and nothing is pushed.
   */
  function ReadNumberAt(m: map<string, Json>, key: string, ctx: ConversionContext, what: string, constant: real, stops: real,
                        init: real, onMap: Option<real>, onList: Option<real>): (r: Setting<real>)
    ensures key !in m ==> r == Setting(init, None, [])
    ensures key in m ==> r == ReadNumber(m[key], ctx, what, constant, stops, init, onMap, onList)
  {
    if key in m then ReadNumber(m[key], ctx, what, constant, stops, init, onMap, onList)
    else Setting(init, None, [])
  }

  // ---------------------------------------------------------------------
  // Colours

  /** The colour an `interpolate` expression hands back, if it hands back a colour. */
  function ColorOf(f: Option<Fallback>): Option<Color>
  {
    if f.Some? && f.value.ColorFallback? then Some(f.value.color) else None
  }

  /**
   * A colour setting: zoom stops and an `interpolate` expression set the
   * property and hand back the first stop's colour; a string goes to the
   * colour parser; any other shape warns. A colour not handed back stays the
   * invalid colour.
   */
  function ReadColor(v: Json, ctx: ConversionContext, what: string): (r: Setting<Color>)
    ensures v.Str? ==> r == Setting(ctx.parseColorText(v.s), None, [])
    ensures v.Object? ==>
      var c := ParseInterpolateColorByZoom(v.fields, ctx);
      r == Setting(if c.default.Some? then c.default.value else InvalidColor, Some(c.prop), c.warnings)
    ensures v.List? ==>
      var c := ParseInterpolateListByZoom(v.items, ColorType, ctx, 1.0, 255);
      r == Setting(if ColorOf(c.default).Some? then ColorOf(c.default).value else InvalidColor, Some(c.prop), c.warnings)
    ensures !v.Str? && !v.Object? && !v.List? ==> r == Setting(InvalidColor, None, [NonImplementedWarning(what)])
  {
    match v
    case Object(fields) =>
      var c := ParseInterpolateColorByZoom(fields, ctx);
      Setting(if c.default.Some? then c.default.value else InvalidColor, Some(c.prop), c.warnings)
    case List(items) =>
      var c := ParseInterpolateListByZoom(items, ColorType, ctx, 1.0, 255);
      var d := ColorOf(c.default);
      Setting(if d.Some? then d.value else InvalidColor, Some(c.prop), c.warnings)
    case Str(s) => Setting(ParseColor(Str(s), ctx).value, None, [])
    case _ => Setting(InvalidColor, None, [NonImplementedWarning(what)])
  }

  /** An optional colour setting: absent, the colour stays invalid and nothing happens. */
  function ReadColorAt(m: map<string, Json>, key: string, ctx: ConversionContext, what: string): (r: Setting<Color>)
    ensures key !in m ==> r == Setting(InvalidColor, None, [])
    ensures key in m ==> r == ReadColor(m[key], ctx, what)
  {
    if key in m then ReadColor(m[key], ctx, what) else Setting(InvalidColor, None, [])
  }

  /** The alpha an opacity scales: the colour's own when valid, full otherwise. */
  function AlphaOf(c: Color): int
  {
    if c.valid then c.alpha else 255
  }

  /** An opacity compiled against a colour's alpha: zoom stops or an `interpolate` expression. */
  function OpacityProperty(v: Json, ctx: ConversionContext, maxOpacity: int): (r: Warned<Property>)
    requires v.Object? || v.List?
    ensures v.Object? ==> r == Warned(ParseInterpolateOpacityByZoom(v.fields, maxOpacity), [])
    ensures v.List? ==>
      var c := ParseInterpolateListByZoom(v.items, OpacityType, ctx, 1.0, maxOpacity);
      r == Warned(c.prop, c.warnings)
  {
    if v.Object? then Warned(ParseInterpolateOpacityByZoom(v.fields, maxOpacity), [])
    else
      var c := ParseInterpolateListByZoom(v.items, OpacityType, ctx, 1.0, maxOpacity);
      Warned(c.prop, c.warnings)
  }

  /** The warning for an opacity that would overwrite a colour already defined per zoom. */
  function OpacityConflictWarning(id: string, what: string): string
  {
    "Could not set opacity of layer " + id + ", opacity already defined in " + what
  }

  /** The warnings for a layer missing its `paint` or `layout` object. */
  function MissingWarning(id: string, what: string): string
  {
    "Style layer " + id + " has no " + what + " property, skipping"
  }

  // ---------------------------------------------------------------------
  // Offsets

  /**
   * A two-number offset (`fill-translate`, `text-offset`): zoom stops set the
   * property and hand back the first stop's point; a list gives its first two
   * elements; both are scaled by `multiplier`. Any other shape warns (with
   * the `fill-translate` wording for both settings) and keeps the origin.
   */
  function ReadPoint(v: Json, multiplier: real): (r: Setting<(real, real)>)
    ensures v.List? ==> r == Setting((ToNumber(At(v.items, 0)) * multiplier, ToNumber(At(v.items, 1)) * multiplier), None, [])
    ensures v.Object? ==>
      var c := ParseInterpolatePointByZoom(v.fields, multiplier);
      r == Setting(if c.default.Some? then c.default.value else (0.0, 0.0), Some(c.prop), c.warnings)
    ensures !v.List? && !v.Object? ==> r == Setting((0.0, 0.0), None, [NonImplementedWarning("fill-translate")])
  {
    if v.Object? then
      var c := ParseInterpolatePointByZoom(v.fields, multiplier);
      Setting(if c.default.Some? then c.default.value else (0.0, 0.0), Some(c.prop), c.warnings)
    else if v.List? then
      var x := ToNumber(At(v.items, 0)) * multiplier;
      var y := ToNumber(At(v.items, 1)) * multiplier;
      Setting((x, y), None, [])
    else Setting((0.0, 0.0), None, [NonImplementedWarning("fill-translate")])
  }

  // ---------------------------------------------------------------------
  // retrieveSprite

  function SpriteWarning(name: string): string
  {
    "Could not retrieve sprite '" + name + "'"
  }

  /** The sprite definition for `name`: its members, empty when it is missing or not an object. */
  function SpriteDefinition(name: string, ctx: ConversionContext): map<string, Json>
  {
    ToObject(Get(ctx.spriteDefinitions, name))
  }

  /** The atlas region a sprite definition names. */
  function CopyDefined(def: map<string, Json>, ctx: ConversionContext): Option<SpriteImage>
  {
    ctx.copySprite(ToInt(Get(def, "x")), ToInt(Get(def, "y")), ToInt(Get(def, "width")), ToInt(Get(def, "height")))
  }

  /**
   * retrieveSprite: the image of sprite `name`, cut out of the atlas at the
   * position and size its definition gives. It is found exactly when there
   * is an atlas, the definition is a non-empty object and the copy is not
   * null; otherwise one warning names the sprite.
   */
  function RetrieveSprite(name: string, ctx: ConversionContext): (r: Warned<Option<SpriteImage>>)
    ensures r.value.Some? <==>
      ctx.spriteImage.Some? && |SpriteDefinition(name, ctx)| > 0 && CopyDefined(SpriteDefinition(name, ctx), ctx).Some?
    ensures r.value.Some? ==> r.value == CopyDefined(SpriteDefinition(name, ctx), ctx) && r.warnings == []
    ensures r.value.None? ==> r.warnings == [SpriteWarning(name)]
  {
    if ctx.spriteImage.None? then Warned(None, [SpriteWarning(name)])
    else
      var def := SpriteDefinition(name, ctx);
      if |def| == 0 then Warned(None, [SpriteWarning(name)])
      else
        var sprite := CopyDefined(def, ctx);
        if sprite.None? then Warned(None, [SpriteWarning(name)])
        else Warned(sprite, [])
  }

  /** The warning for a missing sprite names it: equal warnings mean equal names. */
  lemma SpriteWarningNamesSprite(a: string, b: string)
    requires SpriteWarning(a) == SpriteWarning(b)
    ensures a == b
  {
    MiddleInjective("Could not retrieve sprite '", a, b, "'");
  }

  /** Changing or adding the definition of another sprite leaves the lookup of `name` as it was. */
  lemma SpriteIgnoresOtherDefinitions(name: string, other: string, def: Json, ctx: ConversionContext)
    requires other != name
    ensures RetrieveSprite(name, ctx.(spriteDefinitions := ctx.spriteDefinitions[other := def])) == RetrieveSprite(name, ctx)
  {
  }
}

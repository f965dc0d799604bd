/**
 * What every converter routine shares: the conversion context (the pixel
 * size conversion factor, the sprite atlas and the services the converter
 * calls but does not implement), the warning list each routine contributes
 * to, colours as the converter reads them, and data-defined property
 * collections.
 */
module Context {
  import opened Json

  /**
   * A value together with the warnings pushed while computing it, in the
   * order they were pushed. The source appends them to the context's list.
   */
  datatype Warned<T> = Warned(value: T, warnings: seq<string>)

  /**
   * A colour as the converter uses it: its HSL hue (-1 when achromatic),
   * HSL saturation, lightness and alpha on Qt's 0..255 scales, and whether
   * it is valid at all.
   */
  datatype Color = Color(hue: int, saturation: int, lightness: int, alpha: int, valid: bool)

  /** A colour value is on Qt's scales. */
  predicate OnScale(c: Color)
  {
    -1 <= c.hue < 360 && 0 <= c.saturation <= 255 && 0 <= c.lightness <= 255 && 0 <= c.alpha <= 255
  }

  /**
   * The default-constructed (invalid) colour. Its components are those Qt
   * reports for it: no hue, zero saturation and lightness, full alpha.
   */
  const InvalidColor: Color := Color(-1, 0, 0, 255, false)

  /** Pixel size of the loaded sprite atlas image. */
  datatype SpriteImage = SpriteImage(width: int, height: int)

  /**
   * The conversion context. The colour-string parser, the font style lookup
   * and the copying of a region out of the sprite atlas (at x, y with a
   * width and height; none when the copy is a null image) are services
   * outside the converter, given here as functions.
   */
  datatype ConversionContext = ConversionContext(
    pixelSizeConversionFactor: real,
    parseColorText: string -> Color,
    fontFamilyHasStyle: (string, string) -> bool,
    spriteImage: Option<SpriteImage>,
    spriteDefinitions: map<string, Json>,
    copySprite: (int, int, int, int) -> Option<SpriteImage>)

  /**
   * The data-defined properties the converter sets: the first seven on symbol
   * layers, the rest on label settings.
   */
  datatype PropertyKey =
    | FillColor | StrokeColor | StrokeWidth | Offset | Opacity | Angle | Interval
    | Size | AutoWrapLength | FontLetterSpacing | LabelColor | BufferColor | BufferSize | OffsetQuad | OffsetXY

  /** A data-defined property: inactive, or an expression in the target language. */
  datatype Property = Inactive | Expression(text: string)

  /** QgsProperty::fromExpression: an empty expression makes an inactive property. */
  function FromExpression(text: string): (p: Property)
    ensures p.Inactive? <==> text == ""
    ensures p.Expression? ==> p.text == text
  {
    if text == "" then Inactive else Expression(text)
  }

  /** A property collection keeps only active properties, by key. */
  type Properties = map<PropertyKey, string>

  /**
   * QgsPropertyCollection::setProperty: an active property is stored under
   * its key (replacing any earlier one), an inactive one removes the key.
   */
  function SetProperty(props: Properties, key: PropertyKey, p: Property): (r: Properties)
    ensures p.Expression? ==> key in r && r[key] == p.text
    ensures p.Inactive? ==> key !in r
    ensures forall k :: k != key ==> (k in r <==> k in props)
    ensures forall k :: k != key && k in r ==> r[k] == props[k]
  {
    if p.Expression? then props[key := p.text] else props - {key}
  }

  /** QgsPropertyCollection::property. */
  function PropertyOf(props: Properties, key: PropertyKey): (p: Property)
    ensures p.Expression? <==> key in props
  {
    if key in props then Expression(props[key]) else Inactive
  }
}

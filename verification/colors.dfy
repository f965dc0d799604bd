/**
 * Colours inside the converter: the guard that refuses non-string colour
 * values before handing text to the colour parser, and the split of a colour
 * into the hue / saturation / lightness / alpha components the generated
 * `color_hsla` expressions use.
 */
module Colors {
  import opened Text
  import opened Json
  import opened Context

  /** The warning for a colour value that is not a string. */
  function NonStringColorWarning(v: Json): string
  {
    "Could not parse non-string color " + ToText(v) + ", skipping"
  }

  /**
   * parseColor(QVariant): a string goes to the colour parser unchanged; any
   * other value yields the invalid colour and one warning naming the value.
   */
  function ParseColor(v: Json, ctx: ConversionContext): (r: Warned<Color>)
    ensures |r.warnings| <= 1
    ensures r.warnings == [] <==> v.Str?
    ensures v.Str? ==> r.value == ctx.parseColorText(v.s)
    ensures !v.Str? ==> !r.value.valid && r.warnings == [NonStringColorWarning(v)]
  {
    if v.Str? then Warned(ctx.parseColorText(v.s), [])
    else Warned(InvalidColor, [NonStringColorWarning(v)])
  }

  /** The warning for a non-string colour names the value: equal warnings mean equal value texts. */
  lemma ColorWarningNamesValue(a: Json, b: Json)
    requires NonStringColorWarning(a) == NonStringColorWarning(b)
    ensures ToText(a) == ToText(b)
  {
    MiddleInjective("Could not parse non-string color ", ToText(a), ToText(b), ", skipping");
  }

  /** HSLA components with saturation and lightness as whole percentages. */
  datatype Hsla = Hsla(hue: int, saturation: int, lightness: int, alpha: int)

  /** Conversion of a floating value to `int` in C++: truncation toward zero. */
  function Truncate(x: real): (n: int)
    ensures x >= 0.0 ==> n as real <= x < n as real + 1.0
    ensures x < 0.0 ==> n as real - 1.0 < x <= n as real
  {
    if x >= 0.0 then x.Floor else -((-x).Floor)
  }

  /** The whole percentage a component on Qt's 0..255 scale stands for. */
  function Percent(component: int): int
  {
    Truncate(component as real / 255.0 * 100.0)
  }

  /**
   * colorAsHslaComponents: an achromatic hue (-1) becomes 0, saturation and
   * lightness become whole percentages rounded down, alpha stays on 0..255.
   */
  function ColorAsHslaComponents(c: Color): (r: Hsla)
    ensures r.hue >= 0
    ensures c.hue >= 0 ==> r.hue == c.hue
    ensures c.hue < 0 ==> r.hue == 0
    ensures r.alpha == c.alpha
    ensures c.saturation >= 0 ==> r.saturation * 255 <= c.saturation * 100 < (r.saturation + 1) * 255
    ensures c.lightness >= 0 ==> r.lightness * 255 <= c.lightness * 100 < (r.lightness + 1) * 255
  {
    Hsla(if c.hue < 0 then 0 else c.hue, Percent(c.saturation), Percent(c.lightness), c.alpha)
  }

  /** A colour on Qt's scales has components on the scales `color_hsla` expects. */
  lemma HslaOnScale(c: Color)
    requires OnScale(c)
    ensures var h := ColorAsHslaComponents(c);
      0 <= h.hue < 360 && 0 <= h.saturation <= 100 && 0 <= h.lightness <= 100 && 0 <= h.alpha <= 255
  {
    var h := ColorAsHslaComponents(c);
    assert h.saturation * 255 <= 255 * 100;
    assert h.lightness * 255 <= 255 * 100;
  }
}

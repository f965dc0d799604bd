/**
 * Zoom-dependent values. A Mapbox GL "function" (`{"base": b, "stops":
 * [[zoom, value], ...]}`) or an `["interpolate", ...]` expression becomes a
 * QGIS expression over `@zoom_level`: a single `scale_linear` / `scale_exp`
 * call for one or two stops, otherwise a `CASE` with one `WHEN` clause per
 * pair of neighbouring stops. Each compiler is written as the loop the
 * converter runs (an accumulating string, an early exit on a bad stop); its
 * contract states the output clause by clause.
 */
module Interpolation {
  import opened Text
  import opened Json
  import opened Context
  import opened Quoting
  import opened Colors

  /** The default tolerance of qgsDoubleNear: four machine epsilons, 2^-50. */
  const NearTolerance: real := 1.0 / 1125899906842624.0

  /** qgsDoubleNear with its default tolerance. */
  predicate Near(a: real, b: real)
  {
    -NearTolerance < a - b <= NearTolerance
  }

  /**
   * interpolateExpression: a constant when both ends are (nearly) equal,
   * otherwise a linear (base 1) or exponential scale between the two stops,
   * multiplied by `multiplier` unless it is exactly 1.
   */
  function InterpolateExpression(zoomMin: real, zoomMax: real, valueMin: real, valueMax: real,
                                 base: real, multiplier: real): (r: string)
    ensures r != ""
  {
    if Near(valueMin, valueMax) then Fmt(valueMin * multiplier)
    else
      var scale :=
        if base == 1.0 then
          "scale_linear(@zoom_level," + Fmt(zoomMin) + "," + Fmt(zoomMax) + "," + Fmt(valueMin) + "," + Fmt(valueMax) + ")"
        else
          "scale_exp(@zoom_level," + Fmt(zoomMin) + "," + Fmt(zoomMax) + "," + Fmt(valueMin) + "," + Fmt(valueMax) + "," + Fmt(base) + ")";
      if multiplier != 1.0 then scale + " * " + Fmt(multiplier) else scale
  }

  // ---------------------------------------------------------------------
  // Reading a stops function

  /** The interpolation base of a function object; "1" when absent. */
  function BaseOf(json: map<string, Json>): real
  {
    ToNumber(GetOr(json, "base", Str("1")))
  }

  /** The stops list of a function object; empty when absent. */
  function StopsOf(json: map<string, Json>): seq<Json>
  {
    ToList(Get(json, "stops"))
  }

  /** The zoom of stop `i` (its first element). */
  function StopZoom(stops: seq<Json>, i: int): Json
  {
    At(ToList(At(stops, i)), 0)
  }

  /** The value of stop `i` (its second element). */
  function StopValue(stops: seq<Json>, i: int): Json
  {
    At(ToList(At(stops, i)), 1)
  }

  /** Number of neighbouring stop pairs, i.e. of `WHEN` clauses the loops emit. */
  function PairCount(stops: seq<Json>): nat
  {
    if |stops| == 0 then 0 else |stops| - 1
  }

  /** Stop `i`'s pair with stop `i + 1`, for a pair position from `i` on, has a zoom satisfying `bad`. */
  predicate SomeZoomFrom(stops: seq<Json>, i: nat, bad: Json -> bool)
  {
    i + 1 < |stops| && exists j :: i <= j < |stops| && bad(StopZoom(stops, j))
  }

  /** A zoom given as an expression (a list), which interpolation cannot use. */
  predicate IsZoomExpression(z: Json) { z.List? }

  /** A zoom that is not a list. */
  predicate IsPlainZoom(z: Json) { !z.List? }

  /** The outcome of compiling a zoom-dependent value: the property, the value to use where the property gives none, and the warnings pushed. */
  datatype Compiled<D> = Compiled(prop: Property, default: Option<D>, warnings: seq<string>)

  /** The result of a compiler that does nothing for its input. */
  function Nothing<D>(warnings: seq<string>): Compiled<D>
  {
    Compiled(Inactive, None, warnings)
  }

  // ---------------------------------------------------------------------
  // parseStops: numeric stops

  const ZoomExpressionWarning := "QGIS does not support expressions in interpolation function, skipping."

  /** The clause for stop pair `i`: between the two zooms, scale between the two values. */
  function NumericClause(base: real, stops: seq<Json>, multiplier: real, i: int): string
  {
    var bz := StopZoom(stops, i);
    var tz := StopZoom(stops, i + 1);
    "WHEN @zoom_level > " + ToText(bz) + " AND @zoom_level <= " + ToText(tz) + " THEN "
      + InterpolateExpression(ToNumber(bz), ToNumber(tz), ToNumber(StopValue(stops, i)), ToNumber(StopValue(stops, i + 1)), base, multiplier)
      + " "
  }

  function NumericClauses(base: real, stops: seq<Json>, multiplier: real): (cs: seq<string>)
    ensures |cs| == PairCount(stops)
  {
    seq(PairCount(stops), i => NumericClause(base, stops, multiplier, i))
  }

  /**
   * parseStops: `CASE`, one clause per neighbouring pair of stops in stop
   * order, `END`; but nothing at all, with one warning, as soon as any zoom
   * is itself an expression.
   */
  function ParseStops(base: real, stops: seq<Json>, multiplier: real): (r: Warned<string>)
    ensures SomeZoomFrom(stops, 0, IsZoomExpression) ==> r == Warned("", [ZoomExpressionWarning])
    ensures !SomeZoomFrom(stops, 0, IsZoomExpression) ==>
      r == Warned("CASE " + Concat(NumericClauses(base, stops, multiplier)) + "END", [])
  {
    NumericStopsFrom(base, stops, multiplier, 0, "CASE ")
  }

  /** The loop of parseStops from pair `i` on, `acc` being the text built so far. */
  function NumericStopsFrom(base: real, stops: seq<Json>, multiplier: real, i: nat, acc: string): (r: Warned<string>)
    requires i <= PairCount(stops)
    ensures SomeZoomFrom(stops, i, IsZoomExpression) ==> r == Warned("", [ZoomExpressionWarning])
    ensures !SomeZoomFrom(stops, i, IsZoomExpression) ==>
      r == Warned(acc + Concat(NumericClauses(base, stops, multiplier)[i..]) + "END", [])
    decreases |stops| - i
  {
    if i + 1 >= |stops| then
      ConcatDone(acc, NumericClauses(base, stops, multiplier), i, "END");
      Warned(acc + "END", [])
    else if IsZoomExpression(StopZoom(stops, i)) || IsZoomExpression(StopZoom(stops, i + 1)) then
      Warned("", [ZoomExpressionWarning])
    else
      ConcatStep(acc, NumericClauses(base, stops, multiplier), i, "END");
      SomeZoomStep(stops, i, IsZoomExpression);
      NumericStopsFrom(base, stops, multiplier, i + 1, acc + NumericClause(base, stops, multiplier, i))
  }

  /** Past a pair whose zooms are both acceptable, the search for a bad zoom moves on by one. */
  lemma SomeZoomStep(stops: seq<Json>, i: nat, bad: Json -> bool)
    requires i + 1 < |stops|
    requires !bad(StopZoom(stops, i)) && !bad(StopZoom(stops, i + 1))
    ensures SomeZoomFrom(stops, i, bad) <==> SomeZoomFrom(stops, i + 1, bad)
  {
    if SomeZoomFrom(stops, i, bad) {
      var j :| i <= j < |stops| && bad(StopZoom(stops, j));
      assert j >= i + 2;
    }
  }

  /** One or two stops: a single scale from the first stop to the last. */
  function EndsExpression(stops: seq<Json>, base: real, multiplier: real): (r: string)
    ensures r != ""
  {
    var last := |stops| - 1;
    InterpolateExpression(ToNumber(StopZoom(stops, 0)), ToNumber(StopZoom(stops, last)),
                          ToNumber(StopValue(stops, 0)), ToNumber(StopValue(stops, last)), base, multiplier)
  }

  /** The first stop's value, times the multiplier. */
  function FirstValue(stops: seq<Json>, multiplier: real): real
  {
    ToNumber(StopValue(stops, 0)) * multiplier
  }

  /**
   * parseInterpolateByZoom: no stops give nothing; one or two stops give a
   * single scale between the first and the last stop; more give parseStops.
   * The first stop's value (times the multiplier) is the default.
   */
  function ParseInterpolateByZoom(json: map<string, Json>, multiplier: real): (r: Compiled<real>)
    ensures |StopsOf(json)| == 0 ==> r == Nothing([])
    ensures |StopsOf(json)| > 0 ==> r.default == Some(FirstValue(StopsOf(json), multiplier))
    ensures 0 < |StopsOf(json)| <= 2 ==> r.prop == Expression(EndsExpression(StopsOf(json), BaseOf(json), multiplier)) && r.warnings == []
    ensures |StopsOf(json)| > 2 ==> r.prop == FromExpression(ParseStops(BaseOf(json), StopsOf(json), multiplier).value)
    ensures |StopsOf(json)| > 2 ==> r.warnings == ParseStops(BaseOf(json), StopsOf(json), multiplier).warnings
  {
    var stops := StopsOf(json);
    if |stops| == 0 then Nothing([])
    else
      var default := Some(FirstValue(stops, multiplier));
      if |stops| <= 2 then
        Compiled(FromExpression(EndsExpression(stops, BaseOf(json), multiplier)), default, [])
      else
        var w := ParseStops(BaseOf(json), stops, multiplier);
        Compiled(FromExpression(w.value), default, w.warnings)
  }

  // ---------------------------------------------------------------------
  // parseOpacityStops / parseInterpolateOpacityByZoom

  /** `set_color_part(@symbol_color, 'alpha', x)`: the symbol colour with alpha `x`. */
  function AlphaPart(x: string): string
  {
    "set_color_part(@symbol_color, 'alpha', " + x + ")"
  }

  /** A stop's value scaled to the 0..maxOpacity alpha range. */
  function StopAlpha(stops: seq<Json>, i: int, maxOpacity: int): real
  {
    ToNumber(StopValue(stops, i)) * (maxOpacity as real)
  }

  /** Below the first zoom: the first stop's alpha. */
  function OpacityBelow(stops: seq<Json>, maxOpacity: int): string
  {
    "CASE WHEN @zoom_level < " + ToText(StopZoom(stops, 0)) + " THEN " + AlphaPart(Fmt(StopAlpha(stops, 0, maxOpacity)))
  }

  /** Between the zooms of pair `i` (bottom included): alpha scaled between the pair's values. */
  function OpacityClause(base: real, stops: seq<Json>, maxOpacity: int, i: int): string
  {
    var bz := StopZoom(stops, i);
    var tz := StopZoom(stops, i + 1);
    " WHEN @zoom_level >= " + ToText(bz) + " AND @zoom_level < " + ToText(tz) + " THEN "
      + AlphaPart(InterpolateExpression(ToNumber(bz), ToNumber(tz), StopAlpha(stops, i, maxOpacity), StopAlpha(stops, i + 1, maxOpacity), base, 1.0))
  }

  /** From the last zoom on: the last stop's alpha. */
  function OpacityAbove(stops: seq<Json>, maxOpacity: int): string
  {
    var last := |stops| - 1;
    " WHEN @zoom_level >= " + ToText(StopZoom(stops, last)) + " THEN " + AlphaPart(Fmt(StopAlpha(stops, last, maxOpacity))) + " END"
  }

  function OpacityClauses(base: real, stops: seq<Json>, maxOpacity: int): (cs: seq<string>)
    ensures |cs| == PairCount(stops)
  {
    seq(PairCount(stops), i => OpacityClause(base, stops, maxOpacity, i))
  }

  /**
   * parseOpacityStops: the first stop's alpha below the first zoom, one
   * clause per pair of stops in order, the last stop's alpha from the last
   * zoom on. Zooms are not checked here.
   */
  function ParseOpacityStops(base: real, stops: seq<Json>, maxOpacity: int): (r: string)
    requires |stops| > 0
    ensures r == OpacityBelow(stops, maxOpacity) + Concat(OpacityClauses(base, stops, maxOpacity)) + OpacityAbove(stops, maxOpacity)
  {
    OpacityStopsFrom(base, stops, maxOpacity, 0, OpacityBelow(stops, maxOpacity))
  }

  /** The loop of parseOpacityStops from pair `i` on. */
  function OpacityStopsFrom(base: real, stops: seq<Json>, maxOpacity: int, i: nat, acc: string): (r: string)
    requires 0 < |stops| && i <= PairCount(stops)
    ensures r == acc + Concat(OpacityClauses(base, stops, maxOpacity)[i..]) + OpacityAbove(stops, maxOpacity)
    decreases |stops| - i
  {
    if i + 1 >= |stops| then
      ConcatDone(acc, OpacityClauses(base, stops, maxOpacity), i, OpacityAbove(stops, maxOpacity));
      acc + OpacityAbove(stops, maxOpacity)
    else
      ConcatStep(acc, OpacityClauses(base, stops, maxOpacity), i, OpacityAbove(stops, maxOpacity));
      OpacityStopsFrom(base, stops, maxOpacity, i + 1, acc + OpacityClause(base, stops, maxOpacity, i))
  }

  /** One or two stops: the alpha scaled from the first stop to the last, with no multiplier. */
  function EndsAlpha(stops: seq<Json>, base: real, maxOpacity: int): string
  {
    var last := |stops| - 1;
    InterpolateExpression(ToNumber(StopZoom(stops, 0)), ToNumber(StopZoom(stops, last)),
                          StopAlpha(stops, 0, maxOpacity), StopAlpha(stops, last, maxOpacity), base, 1.0)
  }

  /**
   * parseInterpolateOpacityByZoom: the symbol colour with its alpha scaled
   * between the stops; a single scale for one or two stops, parseOpacityStops
   * for more. Never warns.
   */
  function ParseInterpolateOpacityByZoom(json: map<string, Json>, maxOpacity: int): (r: Property)
    ensures |StopsOf(json)| == 0 <==> r.Inactive?
    ensures 0 < |StopsOf(json)| <= 2 ==> r == Expression(AlphaPart(EndsAlpha(StopsOf(json), BaseOf(json), maxOpacity)))
    ensures |StopsOf(json)| > 2 ==> r == Expression(ParseOpacityStops(BaseOf(json), StopsOf(json), maxOpacity))
  {
    var stops := StopsOf(json);
    if |stops| == 0 then Inactive
    else if |stops| <= 2 then Expression(AlphaPart(EndsAlpha(stops, BaseOf(json), maxOpacity)))
    else
      FromExpression(ParseOpacityStops(BaseOf(json), stops, maxOpacity))
  }

  // ---------------------------------------------------------------------
  // parsePointStops / parseInterpolatePointByZoom

  const OffsetInterpolationWarning := "Could not convert offset interpolation, skipping."

  /** Coordinate `k` (0 for x, 1 for y) of stop `i`'s point value. */
  function StopCoordinate(stops: seq<Json>, i: int, k: int): real
  {
    ToNumber(At(ToList(StopValue(stops, i)), k))
  }

  /** Both coordinates of stop pair `i`, each scaled between the pair's points. */
  function PointClause(base: real, stops: seq<Json>, multiplier: real, i: int): string
  {
    var bz := StopZoom(stops, i);
    var tz := StopZoom(stops, i + 1);
    "WHEN @zoom_level > " + ToText(bz) + " AND @zoom_level <= " + ToText(tz) + " THEN array("
      + InterpolateExpression(ToNumber(bz), ToNumber(tz), StopCoordinate(stops, i, 0), StopCoordinate(stops, i + 1, 0), base, multiplier) + ","
      + InterpolateExpression(ToNumber(bz), ToNumber(tz), StopCoordinate(stops, i, 1), StopCoordinate(stops, i + 1, 1), base, multiplier) + ")"
  }

  function PointClauses(base: real, stops: seq<Json>, multiplier: real): (cs: seq<string>)
    ensures |cs| == PairCount(stops)
  {
    seq(PairCount(stops), i => PointClause(base, stops, multiplier, i))
  }

  /**
   * parsePointStops. Its guard is the reverse of parseStops': it gives up,
   * with one warning, as soon as some zoom is NOT a list, so plain numeric
   * zooms never produce clauses.
   */
  function ParsePointStops(base: real, stops: seq<Json>, multiplier: real): (r: Warned<string>)
    ensures SomeZoomFrom(stops, 0, IsPlainZoom) ==> r == Warned("", [OffsetInterpolationWarning])
    ensures !SomeZoomFrom(stops, 0, IsPlainZoom) ==>
      r == Warned("CASE " + Concat(PointClauses(base, stops, multiplier)) + "END", [])
  {
    PointStopsFrom(base, stops, multiplier, 0, "CASE ")
  }

  /** The loop of parsePointStops from pair `i` on. */
  function PointStopsFrom(base: real, stops: seq<Json>, multiplier: real, i: nat, acc: string): (r: Warned<string>)
    requires i <= PairCount(stops)
    ensures SomeZoomFrom(stops, i, IsPlainZoom) ==> r == Warned("", [OffsetInterpolationWarning])
    ensures !SomeZoomFrom(stops, i, IsPlainZoom) ==>
      r == Warned(acc + Concat(PointClauses(base, stops, multiplier)[i..]) + "END", [])
    decreases |stops| - i
  {
    if i + 1 >= |stops| then
      ConcatDone(acc, PointClauses(base, stops, multiplier), i, "END");
      Warned(acc + "END", [])
    else if IsPlainZoom(StopZoom(stops, i)) || IsPlainZoom(StopZoom(stops, i + 1)) then
      Warned("", [OffsetInterpolationWarning])
    else
      ConcatStep(acc, PointClauses(base, stops, multiplier), i, "END");
      SomeZoomStep(stops, i, IsPlainZoom);
      PointStopsFrom(base, stops, multiplier, i + 1, acc + PointClause(base, stops, multiplier, i))
  }

  /** One or two stops: `array(x, y)` of two scales from the first stop's point to the last's. */
  function EndsPointExpression(stops: seq<Json>, base: real, multiplier: real): (r: string)
    ensures r != ""
  {
    var last := |stops| - 1;
    var z0 := ToNumber(StopZoom(stops, 0));
    var z1 := ToNumber(StopZoom(stops, last));
    "array(" + InterpolateExpression(z0, z1, StopCoordinate(stops, 0, 0), StopCoordinate(stops, last, 0), base, multiplier)
      + "," + InterpolateExpression(z0, z1, StopCoordinate(stops, 0, 1), StopCoordinate(stops, last, 1), base, multiplier) + ")"
  }

  /** The first stop's point, both coordinates times the multiplier. */
  function FirstPoint(stops: seq<Json>, multiplier: real): (real, real)
  {
    (StopCoordinate(stops, 0, 0) * multiplier, StopCoordinate(stops, 0, 1) * multiplier)
  }

  /**
   * parseInterpolatePointByZoom: `array(x, y)` of two scales for one or two
   * stops, parsePointStops for more; the first stop's point (times the
   * multiplier) is the default.
   */
  function ParseInterpolatePointByZoom(json: map<string, Json>, multiplier: real): (r: Compiled<(real, real)>)
    ensures |StopsOf(json)| == 0 ==> r == Nothing([])
    ensures |StopsOf(json)| > 0 ==> r.default == Some(FirstPoint(StopsOf(json), multiplier))
    ensures 0 < |StopsOf(json)| <= 2 ==> r.prop == Expression(EndsPointExpression(StopsOf(json), BaseOf(json), multiplier)) && r.warnings == []
    ensures |StopsOf(json)| > 2 ==> r.prop == FromExpression(ParsePointStops(BaseOf(json), StopsOf(json), multiplier).value)
    ensures |StopsOf(json)| > 2 ==> r.warnings == ParsePointStops(BaseOf(json), StopsOf(json), multiplier).warnings
  {
    var stops := StopsOf(json);
    if |stops| == 0 then Nothing([])
    else
      var default := Some(FirstPoint(stops, multiplier));
      if |stops| <= 2 then
        Compiled(FromExpression(EndsPointExpression(stops, BaseOf(json), multiplier)), default, [])
      else
        var w := ParsePointStops(BaseOf(json), stops, multiplier);
        Compiled(FromExpression(w.value), default, w.warnings)
  }

  // ---------------------------------------------------------------------
  // parseStringStops / parseInterpolateStringByZoom

  /** A stop's value looked up in the conversion map; its own text when the map has no entry. */
  function ConvertedText(conversionMap: map<string, Json>, text: string): Json
  {
    GetOr(conversionMap, text, Str(text))
  }

  /** Pair `i`: the bottom stop's (converted) value, as a literal. */
  function StringClause(stops: seq<Json>, conversionMap: map<string, Json>, i: int): string
  {
    "WHEN @zoom_level > " + ToText(StopZoom(stops, i)) + " AND @zoom_level <= " + ToText(StopZoom(stops, i + 1)) + " THEN "
      + QuotedValue(ConvertedText(conversionMap, ToText(StopValue(stops, i)))) + " "
  }

  /**
   * Otherwise: the last stop's value converted by the map; when the map has
   * no entry for its text, the value itself (not its text) is quoted.
   */
  function StringElse(stops: seq<Json>, conversionMap: map<string, Json>): string
  {
    var last := StopValue(stops, |stops| - 1);
    "ELSE " + QuotedValue(GetOr(conversionMap, ToText(last), last)) + " END"
  }

  function StringClauses(stops: seq<Json>, conversionMap: map<string, Json>): (cs: seq<string>)
    ensures |cs| == PairCount(stops)
  {
    seq(PairCount(stops), i => StringClause(stops, conversionMap, i))
  }

  /**
   * parseStringStops: like parseStops, with each pair giving its bottom
   * value and an `ELSE` giving the last value; the last value's text is the
   * default. A zoom given as an expression gives nothing and no default.
   */
  function ParseStringStops(stops: seq<Json>, conversionMap: map<string, Json>): (r: Warned<(string, Option<string>)>)
    requires |stops| > 0
    ensures SomeZoomFrom(stops, 0, IsZoomExpression) ==> r == Warned(("", None), [ZoomExpressionWarning])
    ensures !SomeZoomFrom(stops, 0, IsZoomExpression) ==>
      r == Warned(("CASE " + Concat(StringClauses(stops, conversionMap)) + StringElse(stops, conversionMap),
                   Some(ToText(StopValue(stops, |stops| - 1)))), [])
  {
    StringStopsFrom(stops, conversionMap, 0, "CASE ")
  }

  /** The loop of parseStringStops from pair `i` on. */
  function StringStopsFrom(stops: seq<Json>, conversionMap: map<string, Json>, i: nat, acc: string): (r: Warned<(string, Option<string>)>)
    requires 0 < |stops| && i <= PairCount(stops)
    ensures SomeZoomFrom(stops, i, IsZoomExpression) ==> r == Warned(("", None), [ZoomExpressionWarning])
    ensures !SomeZoomFrom(stops, i, IsZoomExpression) ==>
      r == Warned((acc + Concat(StringClauses(stops, conversionMap)[i..]) + StringElse(stops, conversionMap),
                   Some(ToText(StopValue(stops, |stops| - 1)))), [])
    decreases |stops| - i
  {
    if i + 1 >= |stops| then
      ConcatDone(acc, StringClauses(stops, conversionMap), i, StringElse(stops, conversionMap));
      Warned((acc + StringElse(stops, conversionMap), Some(ToText(StopValue(stops, |stops| - 1)))), [])
    else if IsZoomExpression(StopZoom(stops, i)) || IsZoomExpression(StopZoom(stops, i + 1)) then
      Warned(("", None), [ZoomExpressionWarning])
    else
      ConcatStep(acc, StringClauses(stops, conversionMap), i, StringElse(stops, conversionMap));
      SomeZoomStep(stops, i, IsZoomExpression);
      StringStopsFrom(stops, conversionMap, i + 1, acc + StringClause(stops, conversionMap, i))
  }

  /**
   * parseInterpolateStringByZoom: nothing for no stops; a zoom given as an
   * expression gives nothing but the warning; otherwise the CASE of the
   * string clauses with the last value as ELSE, and the last value's text as
   * the default.
   */
  function ParseInterpolateStringByZoom(json: map<string, Json>, conversionMap: map<string, Json>): (r: Compiled<string>)
    ensures |StopsOf(json)| == 0 ==> r == Nothing([])
    ensures |StopsOf(json)| > 0 && SomeZoomFrom(StopsOf(json), 0, IsZoomExpression) ==> r == Nothing([ZoomExpressionWarning])
    ensures |StopsOf(json)| > 0 && !SomeZoomFrom(StopsOf(json), 0, IsZoomExpression) ==>
      var stops := StopsOf(json);
      r == Compiled(Expression("CASE " + Concat(StringClauses(stops, conversionMap)) + StringElse(stops, conversionMap)),
                    Some(ToText(StopValue(stops, |stops| - 1))), [])
  {
    var stops := StopsOf(json);
    if |stops| == 0 then Nothing([])
    else
      var w := ParseStringStops(stops, conversionMap);
      Compiled(FromExpression(w.value.0), w.value.1, w.warnings)
  }

  // ---------------------------------------------------------------------
  // parseInterpolateColorByZoom

  /** The HSLA components of stop `i`'s colour and the warning its value may push. */
  function StopColor(stops: seq<Json>, ctx: ConversionContext, i: int): Warned<Hsla>
  {
    var c := ParseColor(StopValue(stops, i), ctx);
    Warned(ColorAsHslaComponents(c.value), c.warnings)
  }

  /** `color_hsla(h, s, l, a)`. */
  function ColorHsla(h: string, s: string, l: string, a: string): string
  {
    "color_hsla(" + h + ", " + s + ", " + l + ", " + a + ")"
  }

  /** Pair `i`: from the bottom zoom (included) to the top zoom, each component scaled between the two colours. */
  function ColorClause(base: real, stops: seq<Json>, ctx: ConversionContext, i: int): string
  {
    var bz := ToText(StopZoom(stops, i));
    var tz := ToText(StopZoom(stops, i + 1));
    var b := StopColor(stops, ctx, i).value;
    var t := StopColor(stops, ctx, i + 1).value;
    var z0 := ParseNumber(bz);
    var z1 := ParseNumber(tz);
    "WHEN @zoom_level >= " + bz + " AND @zoom_level < " + tz + " THEN "
      + ColorHsla(InterpolateExpression(z0, z1, b.hue as real, t.hue as real, base, 1.0),
                  InterpolateExpression(z0, z1, b.saturation as real, t.saturation as real, base, 1.0),
                  InterpolateExpression(z0, z1, b.lightness as real, t.lightness as real, base, 1.0),
                  InterpolateExpression(z0, z1, b.alpha as real, t.alpha as real, base, 1.0))
      + " "
  }

  /** The warnings pair `i` pushes: the bottom colour's, then the top colour's. */
  function ColorClauseWarnings(stops: seq<Json>, ctx: ConversionContext, i: int): seq<string>
  {
    StopColor(stops, ctx, i).warnings + StopColor(stops, ctx, i + 1).warnings
  }

  /** From the last zoom on, and otherwise (below the first zoom): the last colour. */
  function ColorTop(stops: seq<Json>, ctx: ConversionContext): string
  {
    var t := StopColor(stops, ctx, |stops| - 1).value;
    var hsla := ColorHsla(IntToString(t.hue), IntToString(t.saturation), IntToString(t.lightness), IntToString(t.alpha));
    "WHEN @zoom_level >= " + ToText(StopZoom(stops, |stops| - 1)) + " THEN " + hsla + " ELSE " + hsla + " END"
  }

  function ColorClauses(base: real, stops: seq<Json>, ctx: ConversionContext): (cs: seq<string>)
    ensures |cs| == PairCount(stops)
  {
    seq(PairCount(stops), i => ColorClause(base, stops, ctx, i))
  }

  function ColorWarnings(stops: seq<Json>, ctx: ConversionContext): (ws: seq<seq<string>>)
    ensures |ws| == PairCount(stops)
  {
    seq(PairCount(stops), i => ColorClauseWarnings(stops, ctx, i))
  }

  /** The loop of parseInterpolateColorByZoom from pair `i` on, with the text and warnings so far. */
  function ColorStopsFrom(base: real, stops: seq<Json>, ctx: ConversionContext, i: nat, acc: string, warnings: seq<string>): (r: Warned<string>)
    requires 0 < |stops| && i <= PairCount(stops)
    ensures r.value == acc + Concat(ColorClauses(base, stops, ctx)[i..]) + ColorTop(stops, ctx)
    ensures r.warnings == warnings + Concat(ColorWarnings(stops, ctx)[i..]) + StopColor(stops, ctx, |stops| - 1).warnings
    decreases |stops| - i
  {
    if i + 1 >= |stops| then
      ConcatDone(acc, ColorClauses(base, stops, ctx), i, ColorTop(stops, ctx));
      ConcatDone(warnings, ColorWarnings(stops, ctx), i, StopColor(stops, ctx, |stops| - 1).warnings);
      Warned(acc + ColorTop(stops, ctx), warnings + StopColor(stops, ctx, |stops| - 1).warnings)
    else
      ConcatStep(acc, ColorClauses(base, stops, ctx), i, ColorTop(stops, ctx));
      ConcatStep(warnings, ColorWarnings(stops, ctx), i, StopColor(stops, ctx, |stops| - 1).warnings);
      ColorStopsFrom(base, stops, ctx, i + 1, acc + ColorClause(base, stops, ctx, i), warnings + ColorClauseWarnings(stops, ctx, i))
  }

  /**
   * parseInterpolateColorByZoom: `CASE`, one clause per pair of stops in
   * order, the last colour from the last zoom on and below the first; every
   * non-string colour value warns once per use. The default is the first
   * stop's colour, parsed from its text without any warning.
   */
  function ParseInterpolateColorByZoom(json: map<string, Json>, ctx: ConversionContext): (r: Compiled<Color>)
    ensures |StopsOf(json)| == 0 ==> r == Nothing([])
    ensures |StopsOf(json)| > 0 ==>
      var stops := StopsOf(json);
      && r.prop == Expression("CASE " + Concat(ColorClauses(BaseOf(json), stops, ctx)) + ColorTop(stops, ctx))
      && r.default == Some(ctx.parseColorText(ToText(StopValue(stops, 0))))
      && r.warnings == Concat(ColorWarnings(stops, ctx)) + StopColor(stops, ctx, |stops| - 1).warnings
  {
    var stops := StopsOf(json);
    if |stops| == 0 then Nothing([])
    else
      var w := ColorStopsFrom(BaseOf(json), stops, ctx, 0, "CASE ", []);
      var ws := ColorWarnings(stops, ctx);
      assert ws[0..] == ws;
      var nothing: seq<string> := [];
      assert nothing + Concat(ws) == Concat(ws);
      assert ColorClauses(BaseOf(json), stops, ctx)[0..] == ColorClauses(BaseOf(json), stops, ctx);
      Compiled(FromExpression(w.value), Some(ctx.parseColorText(ToText(StopValue(stops, 0)))), w.warnings)
  }

  // ---------------------------------------------------------------------
  // parseInterpolateListByZoom: the `["interpolate", ...]` expression form

  /** How the interpolated value is to be used. */
  datatype PropertyType = ColorType | NumericType | OpacityType | PointType

  /** The default an `interpolate` expression hands back: a colour or a number. */
  datatype Fallback = ColorFallback(color: Color) | NumberFallback(number: real)

  const ValueListWarning := "Could not interpret value list"
  const CubicBezierWarning := "QGIS does not support cubic-bezier interpolation, linear used instead."

  function InterpolationMethodWarning(technique: string): string
  {
    "Skipping not implemented interpolation method " + technique
  }

  function InterpolationInputWarning(input: string): string
  {
    "Skipping not implemented interpolation input " + input
  }

  /** The stop made from the zoom at `i` and the value after it, both as text. */
  function TextStop(json: seq<Json>, i: int): Json
  {
    List([Str(ToText(At(json, i))), Str(ToText(At(json, i + 1)))])
  }

  /**
   * The stops list made from the elements from `i` on, two at a time
   * (`for (i = 3; i < n; i += 2)`); an odd element out pairs with null.
   */
  function TextStops(json: seq<Json>, i: nat): (stops: seq<Json>)
    ensures |stops| == if i < |json| then (|json| - i + 1) / 2 else 0
    ensures forall k :: 0 <= k < |stops| ==> stops[k] == TextStop(json, i + 2 * k)
    decreases |json| - i
  {
    if i >= |json| then [] else [TextStop(json, i)] + TextStops(json, i + 2)
  }

  /** The interpolation method named by element 1; None for an unknown one. */
  function TechniqueBase(json: seq<Json>): Option<real>
  {
    var technique := ToText(At(ToList(At(json, 1)), 0));
    if technique == "linear" then Some(1.0)
    else if technique == "exponential" then Some(ToNumber(At(ToList(At(json, 1)), 1)))
    else if technique == "cubic-bezier" then Some(1.0)
    else None
  }

  /** What the method itself pushes: cubic-bezier is approximated linearly, with a warning. */
  function MethodWarnings(json: seq<Json>): seq<string>
  {
    if ToText(At(ToList(At(json, 1)), 0)) == "cubic-bezier" then [CubicBezierWarning] else []
  }

  /** The stops function the expression stands for. */
  function StopsFunction(json: seq<Json>, base: real): (f: map<string, Json>)
    ensures StopsOf(f) == TextStops(json, 3)
    ensures BaseOf(f) == base
  {
    map["stops" := List(TextStops(json, 3)), "base" := Num(base)]
  }

  /** Dispatches a stops function to the compiler for `kind`. */
  function CompileStops(kind: PropertyType, props: map<string, Json>, ctx: ConversionContext, multiplier: real, maxOpacity: int): (r: Compiled<Fallback>)
    ensures |StopsOf(props)| == 0 ==> r == Nothing([])
  {
    match kind
    case ColorType =>
      var c := ParseInterpolateColorByZoom(props, ctx);
      Compiled(c.prop, if c.default.Some? then Some(ColorFallback(c.default.value)) else None, c.warnings)
    case NumericType =>
      var c := ParseInterpolateByZoom(props, multiplier);
      Compiled(c.prop, if c.default.Some? then Some(NumberFallback(c.default.value)) else None, c.warnings)
    case OpacityType =>
      Compiled(ParseInterpolateOpacityByZoom(props, maxOpacity), None, [])
    case PointType =>
      var c := ParseInterpolatePointByZoom(props, multiplier);
      Compiled(c.prop, None, c.warnings)
  }

  /**
   * parseInterpolateListByZoom: `["interpolate", [method, ...], ["zoom"],
   * z0, v0, z1, v1, ...]` is compiled as the stops function
   * `{"base": b, "stops": [[z0, v0], ...]}` with every zoom and value turned
   * into text; the method gives the base (linear 1, exponential its
   * argument, cubic-bezier 1 with a warning). Anything but `interpolate`, an
   * unknown method or an input other than `zoom` gives nothing and a warning.
   */
  function ParseInterpolateListByZoom(json: seq<Json>, kind: PropertyType, ctx: ConversionContext,
                                      multiplier: real, maxOpacity: int): (r: Compiled<Fallback>)
    ensures ToText(At(json, 0)) != "interpolate" ==> r == Nothing([ValueListWarning])
    ensures ToText(At(json, 0)) == "interpolate" && TechniqueBase(json).None? ==>
      r == Nothing([InterpolationMethodWarning(ToText(At(ToList(At(json, 1)), 0)))])
    ensures ToText(At(json, 0)) == "interpolate" && TechniqueBase(json).Some? && ToText(At(ToList(At(json, 2)), 0)) != "zoom" ==>
      r == Nothing(MethodWarnings(json) + [InterpolationInputWarning(ToText(At(json, 2)))])
    ensures ToText(At(json, 0)) == "interpolate" && TechniqueBase(json).Some? && ToText(At(ToList(At(json, 2)), 0)) == "zoom" ==>
      var c := CompileStops(kind, StopsFunction(json, TechniqueBase(json).value), ctx, multiplier, maxOpacity);
      r == Compiled(c.prop, c.default, MethodWarnings(json) + c.warnings)
    ensures r.prop.Expression? ==>
      && ToText(At(json, 0)) == "interpolate"
      && TechniqueBase(json).Some?
      && ToText(At(ToList(At(json, 2)), 0)) == "zoom"
      && |json| > 3
  {
    if ToText(At(json, 0)) != "interpolate" then Nothing([ValueListWarning])
    else
      var technique := ToText(At(ToList(At(json, 1)), 0));
      match TechniqueBase(json)
      case None => Nothing([InterpolationMethodWarning(technique)])
      case Some(base) =>
        if ToText(At(ToList(At(json, 2)), 0)) != "zoom" then
          Nothing(MethodWarnings(json) + [InterpolationInputWarning(ToText(At(json, 2)))])
        else
          var c := CompileStops(kind, StopsFunction(json, base), ctx, multiplier, maxOpacity);
          Compiled(c.prop, c.default, MethodWarnings(json) + c.warnings)
  }
}

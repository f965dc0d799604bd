/**
 * What the zoom compilers promise beyond their case splits: a constant for
 * nearly equal end values whatever the zoom range, the choice of scale
 * function by the base, a property that is active exactly when nothing was
 * warned, and the defaults agreeing with the expressions they stand in for.
 */
module InterpolationLaws {
  import opened Text
  import opened Json
  import opened Context
  import opened Quoting
  import opened Interpolation
  import opened InterpolationExamples

  predicate StartsWith(s: string, p: string)
  {
    |p| <= |s| && s[..|p|] == p
  }

  predicate EndsWith(s: string, p: string)
  {
    |p| <= |s| && s[|s| - |p|..] == p
  }

  lemma StartsWithAppend(s: string, p: string, t: string)
    requires StartsWith(s, p)
    ensures StartsWith(s + t, p)
  {
    assert (s + t)[..|p|] == s[..|p|];
  }

  lemma EndsWithAppended(s: string, t: string)
    ensures EndsWith(s + t, t)
  {
    assert (s + t)[|s + t| - |t|..] == t;
  }

  const LinearHead := "scale_linear(@zoom_level,"
  const ExpHead := "scale_exp(@zoom_level,"

  // ---------------------------------------------------------------------
  // interpolateExpression

  /**
   * Nearly equal end values give the first value times the multiplier,
   * whatever the zoom range, the base and the exact last value.
   */
  lemma ConstantIgnoresRange(z0: real, z1: real, v0: real, v1: real, b: real,
                             y0: real, y1: real, w1: real, c: real, m: real)
    requires Near(v0, v1) && Near(v0, w1)
    ensures InterpolateExpression(z0, z1, v0, v1, b, m) == InterpolateExpression(y0, y1, v0, w1, c, m)
    ensures InterpolateExpression(z0, z1, v0, v1, b, m) == Fmt(v0 * m)
  {
  }

  /** The four scale arguments appended to `head` leave `head` as the prefix. */
  lemma ArgumentsKeepHead(head: string, a: string, b: string, c: string, d: string)
    ensures StartsWith(head + a + "," + b + "," + c + "," + d, head)
  {
    assert StartsWith(head, head);
    StartsWithAppend(head, head, a);
    StartsWithAppend(head + a, head, ",");
    StartsWithAppend(head + a + ",", head, b);
    StartsWithAppend(head + a + "," + b, head, ",");
    StartsWithAppend(head + a + "," + b + ",", head, c);
    StartsWithAppend(head + a + "," + b + "," + c, head, ",");
    StartsWithAppend(head + a + "," + b + "," + c + ",", head, d);
  }

  /** With multiplier 1, the scale text starts with the head of its scale function. */
  lemma UnscaledHead(z0: real, z1: real, v0: real, v1: real, b: real)
    requires !Near(v0, v1)
    ensures StartsWith(InterpolateExpression(z0, z1, v0, v1, b, 1.0), if b == 1.0 then LinearHead else ExpHead)
  {
    var args := [Fmt(z0), Fmt(z1), Fmt(v0), Fmt(v1)];
    if b == 1.0 {
      LinearText(z0, z1, v0, v1);
      ArgumentsKeepHead(LinearHead, Fmt(z0), Fmt(z1), Fmt(v0), Fmt(v1));
      StartsWithAppend(LinearHead + Fmt(z0) + "," + Fmt(z1) + "," + Fmt(v0) + "," + Fmt(v1), LinearHead, ")");
    } else {
      ExponentialText(z0, z1, v0, v1, b);
      var x := ExpHead + Fmt(z0) + "," + Fmt(z1) + "," + Fmt(v0) + "," + Fmt(v1);
      ArgumentsKeepHead(ExpHead, Fmt(z0), Fmt(z1), Fmt(v0), Fmt(v1));
      StartsWithAppend(x, ExpHead, ",");
      StartsWithAppend(x + ",", ExpHead, Fmt(b));
      StartsWithAppend(x + "," + Fmt(b), ExpHead, ")");
    }
  }

  lemma MultiplierSuffix(z0: real, z1: real, v0: real, v1: real, b: real, m: real)
    requires !Near(v0, v1) && m != 1.0
    ensures InterpolateExpression(z0, z1, v0, v1, b, m) == InterpolateExpression(z0, z1, v0, v1, b, 1.0) + " * " + Fmt(m)
  {
  }

  /**
   * Distinct end values give a scale call: `scale_linear` exactly for base 1,
   * `scale_exp` exactly for any other base, whatever the multiplier.
   */
  lemma ScaleKind(z0: real, z1: real, v0: real, v1: real, b: real, m: real)
    requires !Near(v0, v1)
    ensures var r := InterpolateExpression(z0, z1, v0, v1, b, m);
      && (b == 1.0 <==> StartsWith(r, LinearHead))
      && (b != 1.0 <==> StartsWith(r, ExpHead))
  {
    var head := if b == 1.0 then LinearHead else ExpHead;
    var r1 := InterpolateExpression(z0, z1, v0, v1, b, 1.0);
    UnscaledHead(z0, z1, v0, v1, b);
    if m != 1.0 {
      MultiplierSuffix(z0, z1, v0, v1, b, m);
      StartsWithAppend(r1, head, " * ");
      StartsWithAppend(r1 + " * ", head, Fmt(m));
    }
    HeadsExclusive(InterpolateExpression(z0, z1, v0, v1, b, m));
  }

  /** No text starts with both scale heads: they differ at their seventh character. */
  lemma HeadsExclusive(r: string)
    ensures !(StartsWith(r, LinearHead) && StartsWith(r, ExpHead))
  {
    if StartsWith(r, LinearHead) {
      assert r[6] == r[..|LinearHead|][6] == 'l';
      assert r[..|ExpHead|][6] != ExpHead[6];
    }
  }

  // ---------------------------------------------------------------------
  // parseInterpolateByZoom

  /** With stops, the numeric property is active exactly when nothing was warned. */
  lemma ByZoomActiveIffQuiet(json: map<string, Json>, multiplier: real)
    requires |StopsOf(json)| > 0
    ensures var r := ParseInterpolateByZoom(json, multiplier);
      r.prop.Expression? <==> r.warnings == []
  {
    if |StopsOf(json)| > 2 {
      var w := ParseStops(BaseOf(json), StopsOf(json), multiplier);
      assert w.warnings == [] ==> |w.value| >= 5;
    }
  }

  /** One or two stops with nearly equal values: the property is the default, as a constant. */
  lemma ConstantByZoom(json: map<string, Json>, multiplier: real)
    requires 0 < |StopsOf(json)| <= 2
    requires Near(ToNumber(StopValue(StopsOf(json), 0)), ToNumber(StopValue(StopsOf(json), |StopsOf(json)| - 1)))
    ensures var r := ParseInterpolateByZoom(json, multiplier);
      r.default.Some? && r.prop == Expression(Fmt(r.default.value))
  {
    var stops := StopsOf(json);
    EndsConstant(stops, BaseOf(json), multiplier);
    FirstValueProduct(stops, multiplier);
  }

  lemma FirstValueProduct(stops: seq<Json>, multiplier: real)
    requires |stops| > 0
    ensures FirstValue(stops, multiplier) == ToNumber(StopValue(stops, 0)) * multiplier
  {
  }

  /** Nearly equal end values: the expression of the stops is the first value, formatted. */
  lemma EndsConstant(stops: seq<Json>, base: real, multiplier: real)
    requires |stops| > 0
    requires Near(ToNumber(StopValue(stops, 0)), ToNumber(StopValue(stops, |stops| - 1)))
    ensures EndsExpression(stops, base, multiplier) == Fmt(ToNumber(StopValue(stops, 0)) * multiplier)
  {
    var last := |stops| - 1;
    EndsArguments(stops, base, multiplier);
    NearText(ToNumber(StopZoom(stops, 0)), ToNumber(StopZoom(stops, last)),
             ToNumber(StopValue(stops, 0)), ToNumber(StopValue(stops, last)), base, multiplier,
             EndsExpression(stops, base, multiplier));
  }

  lemma EndsArguments(stops: seq<Json>, base: real, multiplier: real)
    requires |stops| > 0
    ensures EndsExpression(stops, base, multiplier)
         == InterpolateExpression(ToNumber(StopZoom(stops, 0)), ToNumber(StopZoom(stops, |stops| - 1)),
                                  ToNumber(StopValue(stops, 0)), ToNumber(StopValue(stops, |stops| - 1)), base, multiplier)
  {
  }

  lemma NearText(z0: real, z1: real, v0: real, v1: real, b: real, m: real, e: string)
    requires Near(v0, v1) && e == InterpolateExpression(z0, z1, v0, v1, b, m)
    ensures e == Fmt(v0 * m)
  {
  }

  // ---------------------------------------------------------------------
  // parseInterpolateOpacityByZoom

  /** One or two stops with nearly equal alphas: the symbol colour with that constant alpha. */
  lemma ConstantOpacity(json: map<string, Json>, maxOpacity: int)
    requires 0 < |StopsOf(json)| <= 2
    requires Near(StopAlpha(StopsOf(json), 0, maxOpacity), StopAlpha(StopsOf(json), |StopsOf(json)| - 1, maxOpacity))
    ensures ParseInterpolateOpacityByZoom(json, maxOpacity) == Expression(AlphaPart(Fmt(StopAlpha(StopsOf(json), 0, maxOpacity))))
  {
    var stops := StopsOf(json);
    var last := |stops| - 1;
    NearText(ToNumber(StopZoom(stops, 0)), ToNumber(StopZoom(stops, last)),
             StopAlpha(stops, 0, maxOpacity), StopAlpha(stops, last, maxOpacity), BaseOf(json), 1.0,
             EndsAlpha(stops, BaseOf(json), maxOpacity));
    UnitProduct(StopAlpha(stops, 0, maxOpacity));
  }

  lemma UnitProduct(x: real)
    ensures x * 1.0 == x
  {
  }

  // ---------------------------------------------------------------------
  // parseInterpolatePointByZoom

  /** With stops, the point property is active exactly when nothing was warned. */
  lemma PointActiveIffQuiet(json: map<string, Json>, multiplier: real)
    requires |StopsOf(json)| > 0
    ensures var r := ParseInterpolatePointByZoom(json, multiplier);
      r.prop.Expression? <==> r.warnings == []
  {
    if |StopsOf(json)| > 2 {
      var w := ParsePointStops(BaseOf(json), StopsOf(json), multiplier);
      assert w.warnings == [] ==> |w.value| >= 5;
    }
  }

  /**
   * Because of the inverted guard of parsePointStops, more than two stops
   * starting at a numeric zoom never compile: no property, one warning, and
   * only the default point.
   */
  lemma NumericZoomPointsNeverCompile(json: map<string, Json>, multiplier: real)
    requires |StopsOf(json)| > 2 && IsNumber(StopZoom(StopsOf(json), 0))
    ensures var r := ParseInterpolatePointByZoom(json, multiplier);
      && r.prop.Inactive? && r.warnings == [OffsetInterpolationWarning]
      && r.default == Some(FirstPoint(StopsOf(json), multiplier))
  {
    assert IsPlainZoom(StopZoom(StopsOf(json), 0));
    assert SomeZoomFrom(StopsOf(json), 0, IsPlainZoom);
  }

  /** One or two stops with nearly equal points: the property is the default point, as a constant array. */
  lemma ConstantPoint(json: map<string, Json>, multiplier: real)
    requires 0 < |StopsOf(json)| <= 2
    requires var stops := StopsOf(json); var last := |stops| - 1;
      Near(StopCoordinate(stops, 0, 0), StopCoordinate(stops, last, 0)) && Near(StopCoordinate(stops, 0, 1), StopCoordinate(stops, last, 1))
    ensures var r := ParseInterpolatePointByZoom(json, multiplier);
      r.default.Some? && r.prop == Expression("array(" + Fmt(r.default.value.0) + "," + Fmt(r.default.value.1) + ")")
  {
  }

  // ---------------------------------------------------------------------
  // parseInterpolateStringByZoom

  /** With stops, the string property is active exactly when nothing was warned, and so is the default. */
  lemma StringActiveIffQuiet(json: map<string, Json>, conversionMap: map<string, Json>)
    requires |StopsOf(json)| > 0
    ensures var r := ParseInterpolateStringByZoom(json, conversionMap);
      && (r.prop.Expression? <==> r.warnings == [])
      && (r.default.Some? <==> r.warnings == [])
  {
  }

  /**
   * A last value the conversion map does not rename is both the default and
   * the ELSE branch: the expression ends in the literal of the default text.
   */
  lemma StringElseIsDefault(json: map<string, Json>, conversionMap: map<string, Json>)
    requires |StopsOf(json)| > 0 && !SomeZoomFrom(StopsOf(json), 0, IsZoomExpression)
    requires StopValue(StopsOf(json), |StopsOf(json)| - 1).Str?
    requires StopValue(StopsOf(json), |StopsOf(json)| - 1).s !in conversionMap
    ensures var r := ParseInterpolateStringByZoom(json, conversionMap);
      && r.prop.Expression? && r.default.Some?
      && EndsWith(r.prop.text, "ELSE " + QuotedString(r.default.value) + " END")
      && Unquote(QuotedString(r.default.value), '\'') == r.default.value
  {
    var stops := StopsOf(json);
    var last := StopValue(stops, |stops| - 1);
    assert ToText(last) == last.s;
    assert StringElse(stops, conversionMap) == "ELSE " + QuotedString(last.s) + " END";
    EndsWithAppended("CASE " + Concat(StringClauses(stops, conversionMap)), StringElse(stops, conversionMap));
    StringLiteralRoundTrip(last.s);
  }
}

/**
 * interpolateExpression on the values the converter's own tests use, and
 * the general shape of its output: a constant for (nearly) equal values,
 * otherwise a `scale_linear` or `scale_exp` call over `@zoom_level`, with
 * ` * m` appended for a multiplier other than 1.
 */
module InterpolationExamples {
  import opened Text
  import opened Interpolation

  /**
   * The multiplier does not enter the scale call: nearly equal values give
   * the scaled constant, otherwise a multiplier other than 1 is appended as
   * ` * m` to the text the same scale has with multiplier 1.
   */
  lemma MultiplierAppends(zoomMin: real, zoomMax: real, valueMin: real, valueMax: real, base: real, multiplier: real)
    ensures Near(valueMin, valueMax) ==>
      InterpolateExpression(zoomMin, zoomMax, valueMin, valueMax, base, multiplier) == Fmt(valueMin * multiplier)
    ensures !Near(valueMin, valueMax) && multiplier != 1.0 ==>
      InterpolateExpression(zoomMin, zoomMax, valueMin, valueMax, base, multiplier)
        == InterpolateExpression(zoomMin, zoomMax, valueMin, valueMax, base, 1.0) + " * " + Fmt(multiplier)
  {
  }

  /** The text of a linear scale between two unequal values, with multiplier 1. */
  lemma LinearText(zoomMin: real, zoomMax: real, valueMin: real, valueMax: real)
    requires !Near(valueMin, valueMax)
    ensures InterpolateExpression(zoomMin, zoomMax, valueMin, valueMax, 1.0, 1.0)
         == "scale_linear(@zoom_level," + Fmt(zoomMin) + "," + Fmt(zoomMax) + "," + Fmt(valueMin) + "," + Fmt(valueMax) + ")"
  {
  }

  /** The text of an exponential scale between two unequal values, with multiplier 1. */
  lemma ExponentialText(zoomMin: real, zoomMax: real, valueMin: real, valueMax: real, base: real)
    requires !Near(valueMin, valueMax) && base != 1.0
    ensures InterpolateExpression(zoomMin, zoomMax, valueMin, valueMax, base, 1.0)
         == "scale_exp(@zoom_level," + Fmt(zoomMin) + "," + Fmt(zoomMax) + "," + Fmt(valueMin) + "," + Fmt(valueMax) + "," + Fmt(base) + ")"
  {
  }

  /** A whole number prints as its digits. */
  lemma Whole(n: nat, text: string)
    requires text == NatToString(n)
    ensures Fmt(n as real) == text
  {
    FmtWhole(n);
  }

  /** Ten times a padded number is the same digits and one more zero. */
  lemma PaddedTimesTen(n: nat, width: nat)
    requires n < Pow10(width)
    ensures 10 * n < Pow10(width + 1)
    ensures PaddedDigits(10 * n, width + 1) == PaddedDigits(n, width) + "0"
  {
    assert (10 * n) / 10 == n && (10 * n) % 10 == 0;
  }

  /** A trailing zero is trimmed away. */
  lemma TrimZero(s: string)
    ensures TrimTrailingZeros(s + "0") == TrimTrailingZeros(s)
  {
    assert (s + "0")[..|s|] == s;
  }

  /** The six fraction digits of 1.5 are 500000. */
  lemma HalfFraction()
    ensures ScaledFraction(1.5) == 500000
  {
    assert (1.5).Floor == 1;
    assert (0.5 * 1000000.0).Floor == 500000;
  }

  /** 500000 padded to six digits is "500000", which trims to "5". */
  lemma FiveTrimmed()
    ensures TrimTrailingZeros(PaddedDigits(500000, FractionDigits)) == "5"
  {
    var p1 := PaddedDigits(5, 1);
    assert p1 == "5" by {
      assert PaddedDigits(0, 0) == "";
    }
    PaddedTimesTen(5, 1);
    PaddedTimesTen(50, 2);
    PaddedTimesTen(500, 3);
    PaddedTimesTen(5000, 4);
    PaddedTimesTen(50000, 5);
    var p2 := p1 + "0";
    var p3 := p2 + "0";
    var p4 := p3 + "0";
    var p5 := p4 + "0";
    assert PaddedDigits(500000, FractionDigits) == p5 + "0";
    TrimZero(p5);
    TrimZero(p4);
    TrimZero(p3);
    TrimZero(p2);
    TrimZero(p1);
    assert TrimTrailingZeros(p1) == "5";
  }

  /** 1.5 prints with its one fraction digit. */
  lemma OneAndAHalf()
    ensures Fmt(1.5) == "1.5"
  {
    HalfFraction();
    FiveTrimmed();
    assert (1.5).Floor == 1;
    assert NatToString(1) == "1";
  }

  /** The stop values of the examples print as written. */
  lemma ExampleNumbers()
    ensures Fmt(5.0) == "5" && Fmt(13.0) == "13" && Fmt(27.0) == "27" && Fmt(29.0) == "29"
  {
    Whole(5, "5");
    Whole(13, "13");
    Whole(27, "27");
    Whole(29, "29");
  }

  lemma LinearLiteral()
    ensures "scale_linear(@zoom_level," + "5" + "," + "13" + "," + "27" + "," + "29" + ")" == "scale_linear(@zoom_level,5,13,27,29)"
  {
  }

  lemma ExponentialLiteral()
    ensures "scale_exp(@zoom_level," + "5" + "," + "13" + "," + "27" + "," + "29" + "," + "1.5" + ")" == "scale_exp(@zoom_level,5,13,27,29,1.5)"
  {
  }

  /** Base 1 between zooms 5 and 13 and values 27 and 29 is a linear scale. */
  lemma LinearScale()
    ensures InterpolateExpression(5.0, 13.0, 27.0, 29.0, 1.0, 1.0) == "scale_linear(@zoom_level,5,13,27,29)"
  {
    ExampleNumbers();
    LinearText(5.0, 13.0, 27.0, 29.0);
    LinearLiteral();
  }

  /** Base 1.5 between the same stops is an exponential scale with the base last. */
  lemma ExponentialScale()
    ensures InterpolateExpression(5.0, 13.0, 27.0, 29.0, 1.5, 1.0) == "scale_exp(@zoom_level,5,13,27,29,1.5)"
  {
    ExampleNumbers();
    OneAndAHalf();
    ExponentialText(5.0, 13.0, 27.0, 29.0, 1.5);
    ExponentialLiteral();
  }

  /** Equal values give the value itself, times the multiplier. */
  lemma EqualValuesAreConstant()
    ensures InterpolateExpression(5.0, 13.0, 27.0, 27.0, 1.5, 1.0) == "27"
    ensures InterpolateExpression(5.0, 13.0, 27.0, 27.0, 1.5, 2.0) == "54"
  {
    Whole(27, "27");
    Whole(54, "54");
  }
}

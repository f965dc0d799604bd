/**
 * Text helpers shared by the whole converter: joining and flattening lists of
 * strings, integer and number formatting, number parsing and splitting on a
 * separator character. They stand in for the Qt string facilities the
 * converter leans on (QStringList::join, QString::number / QString::arg on a
 * double, QString::toDouble, QString::split).
 */
module Text {

  /** All elements of `parts`, in order: for strings, their concatenation. */
  function Concat<T>(parts: seq<seq<T>>): (r: seq<T>)
    ensures |parts| == 0 ==> r == []
    ensures |parts| == 1 ==> r == parts[0]
    decreases |parts|
  {
    if |parts| == 0 then [] else parts[0] + Concat(parts[1..])
  }

  /** Concatenating a suffix starting at `i` is element `i` followed by the rest. */
  lemma ConcatFrom<T>(parts: seq<seq<T>>, i: nat)
    requires i < |parts|
    ensures Concat(parts[i..]) == parts[i] + Concat(parts[i + 1..])
  {
    assert parts[i..][1..] == parts[i + 1..];
  }

  /** The text between a fixed prefix and a fixed suffix determines itself. */
  lemma MiddleInjective<T>(p: seq<T>, x: seq<T>, y: seq<T>, q: seq<T>)
    requires p + x + q == p + y + q
    ensures x == y
  {
    assert |x| == |y|;
    assert x == (p + x + q)[|p|..|p| + |x|];
    assert y == (p + y + q)[|p|..|p| + |y|];
  }

  /** QStringList::join: the parts in order with `sep` between neighbours. */
  function Join(parts: seq<string>, sep: string): (r: string)
    decreases |parts|
  {
    if |parts| == 0 then ""
    else if |parts| == 1 then parts[0]
    else parts[0] + sep + Join(parts[1..], sep)
  }

  /**
   * One step of a loop that appends part `i` to an accumulator: the
   * accumulator then plus the parts after `i` spell the same text.
   */
  lemma ConcatStep<T>(acc: seq<T>, parts: seq<seq<T>>, i: nat, tail: seq<T>)
    requires i < |parts|
    ensures (acc + parts[i]) + Concat(parts[i + 1..]) + tail == acc + Concat(parts[i..]) + tail
  {
    ConcatFrom(parts, i);
  }

  /** A loop that has appended every part leaves nothing more to add. */
  lemma ConcatDone<T>(acc: seq<T>, parts: seq<seq<T>>, i: nat, tail: seq<T>)
    requires i == |parts|
    ensures acc + tail == acc + Concat(parts[i..]) + tail
  {
    assert parts[i..] == [];
  }

  lemma {:induction false} ConcatAppend<T>(parts: seq<seq<T>>, x: seq<T>)
    ensures Concat(parts + [x]) == Concat(parts) + x
    decreases |parts|
  {
    if |parts| > 0 {
      assert (parts + [x])[1..] == parts[1..] + [x];
      ConcatAppend(parts[1..], x);
    }
  }

  lemma {:induction false} JoinAppend(parts: seq<string>, x: string, sep: string)
    requires |parts| > 0
    ensures Join(parts + [x], sep) == Join(parts, sep) + sep + x
    decreases |parts|
  {
    assert (parts + [x])[1..] == parts[1..] + [x];
    if |parts| > 1 {
      JoinAppend(parts[1..], x, sep);
    }
  }

  // ---------------------------------------------------------------------------
  // Digits and integers

  predicate IsDigit(c: char) { '0' <= c <= '9' }

  function DigitChar(d: int): (c: char)
    requires 0 <= d < 10
    ensures IsDigit(c)
  {
    "0123456789"[d]
  }

  function DigitValue(c: char): (d: int)
    requires IsDigit(c)
    ensures 0 <= d < 10
  {
    (c as int) - ('0' as int)
  }

  lemma DigitRoundTrip(d: int)
    requires 0 <= d < 10
    ensures DigitValue(DigitChar(d)) == d
  {
  }

  predicate AllDigits(s: string) { forall i :: 0 <= i < |s| ==> IsDigit(s[i]) }

  /** Decimal text of a natural number, without leading zeros. */
  function NatToString(n: nat): (r: string)
    ensures |r| > 0 && AllDigits(r)
    ensures |r| > 1 ==> r[0] != '0'
  {
    if n < 10 then [DigitChar(n)] else NatToString(n / 10) + [DigitChar(n % 10)]
  }

  /** Decimal text of an integer, as QString::number(int) writes it. */
  function IntToString(i: int): (r: string)
    ensures |r| > 0
    ensures i < 0 <==> r[0] == '-'
  {
    if i < 0 then "-" + NatToString(-i) else NatToString(i)
  }

  /** Value of a non-empty run of digits. */
  function DigitsValue(s: string): (n: nat)
    requires AllDigits(s)
    decreases |s|
  {
    if |s| == 0 then 0 else DigitsValue(s[..|s| - 1]) * 10 + DigitValue(s[|s| - 1])
  }

  lemma {:induction false} DigitsOfNat(n: nat)
    ensures DigitsValue(NatToString(n)) == n
  {
    var r := NatToString(n);
    if n >= 10 {
      DigitsOfNat(n / 10);
      assert r[..|r| - 1] == NatToString(n / 10);
      DigitRoundTrip(n % 10);
    } else {
      DigitRoundTrip(n);
    }
  }

  // ---------------------------------------------------------------------------
  // Number parsing (QString::toDouble / QString::toInt)

  /** The text is an optionally signed run of digits. */
  predicate IsIntegerText(s: string)
  {
    var body := if |s| > 0 && (s[0] == '-' || s[0] == '+') then s[1..] else s;
    |body| > 0 && AllDigits(body)
  }

  /**
   * QString::toInt: the value of an optionally signed run of digits, 0 when
   * the text is anything else.
   */
  function ParseInt(s: string): (r: int)
    ensures !IsIntegerText(s) ==> r == 0
  {
    if IsIntegerText(s) then
      if s[0] == '-' then -(DigitsValue(s[1..]) as int)
      else if s[0] == '+' then DigitsValue(s[1..])
      else DigitsValue(s)
    else 0
  }

  function Pow10(k: nat): (r: nat)
    ensures r >= 1
  {
    if k == 0 then 1 else 10 * Pow10(k - 1)
  }

  /** An unsigned decimal: digits, optionally followed by '.' and more digits. */
  predicate IsUnsignedDecimal(s: string)
  {
    exists k :: 0 < k <= |s| && AllDigits(s[..k]) && (k == |s| || (s[k] == '.' && AllDigits(s[k + 1..])))
  }

  /** Index of the first occurrence of `c` in `s`, or |s| when there is none. */
  function IndexOf(s: string, c: char): (k: nat)
    ensures k <= |s|
    ensures k < |s| ==> s[k] == c
    ensures forall j :: 0 <= j < k ==> s[j] != c
  {
    if |s| == 0 then 0 else if s[0] == c then 0 else 1 + IndexOf(s[1..], c)
  }

  /** Value of an unsigned decimal text `int[.frac]`. */
  function UnsignedDecimalValue(s: string): real
  {
    var k := IndexOf(s, '.');
    if k == |s| then
      if AllDigits(s) then DigitsValue(s) as real else 0.0
    else
      var whole := s[..k];
      var frac := s[k + 1..];
      if AllDigits(whole) && AllDigits(frac) then
        DigitsValue(whole) as real + DigitsValue(frac) as real / Pow10(|frac|) as real
      else 0.0
  }

  /** A decimal number text: an optional sign, then digits with an optional fraction. */
  predicate IsDecimalText(s: string)
  {
    var body := if |s| > 0 && (s[0] == '-' || s[0] == '+') then s[1..] else s;
    var k := IndexOf(body, '.');
    0 < k && AllDigits(body[..k]) && (k == |body| || AllDigits(body[k + 1..]))
  }

  /**
   * QString::toDouble restricted to plain decimal notation: the value of a
   * decimal text, 0 for any other text (Qt's failure value).
   */
  function ParseNumber(s: string): (r: real)
    ensures !IsDecimalText(s) ==> r == 0.0
  {
    if !IsDecimalText(s) then 0.0
    else if s[0] == '-' then -UnsignedDecimalValue(s[1..])
    else if s[0] == '+' then UnsignedDecimalValue(s[1..])
    else UnsignedDecimalValue(s)
  }

  lemma {:induction false} ParseIntToString(i: int)
    ensures ParseInt(IntToString(i)) == i
    ensures ParseNumber(IntToString(i)) == i as real
  {
    var n: nat := if i < 0 then -i else i;
    var d := NatToString(n);
    DigitsOfNat(n);
    DigitsAsDecimal(d);
    var s := IntToString(i);
    assert IsDigit(d[0]);
    if i < 0 {
      assert s == "-" + d;
      assert s[1..] == d;
    } else {
      assert s == d;
    }
  }

  /** A run of digits reads as the decimal number it spells. */
  lemma DigitsAsDecimal(d: string)
    requires |d| > 0 && AllDigits(d)
    ensures IsDecimalText(d) && UnsignedDecimalValue(d) == DigitsValue(d) as real
  {
    DigitsHaveNoPoint(d);
    assert d[..|d|] == d;
    assert IsDigit(d[0]);
  }

  lemma {:induction false} DigitsHaveNoPoint(s: string)
    requires AllDigits(s)
    ensures IndexOf(s, '.') == |s|
    decreases |s|
  {
    if |s| > 0 {
      DigitsHaveNoPoint(s[1..]);
    }
  }

  // ---------------------------------------------------------------------------
  // Number formatting (QString::number / QString::arg on a double)

  /** Number of fraction digits the formatter keeps. */
  const FractionDigits: nat := 6

  /** `n` written with exactly `width` digits, padded with leading zeros. */
  function PaddedDigits(n: nat, width: nat): (r: string)
    requires n < Pow10(width)
    ensures |r| == width && AllDigits(r)
  {
    if width == 0 then "" else PaddedDigits(n / 10, width - 1) + [DigitChar(n % 10)]
  }

  function TrimTrailingZeros(s: string): (r: string)
    ensures |r| <= |s| && r == s[..|r|]
    ensures |r| > 0 ==> r[|r| - 1] != '0'
  {
    if |s| > 0 && s[|s| - 1] == '0' then TrimTrailingZeros(s[..|s| - 1]) else s
  }

  /**
   * Number to text: a whole number prints as an integer, any other value as
   * its integer part, a point and at most six fraction digits with trailing
   * zeros dropped, cut off rather than rounded. This stands in for Qt's
   * QString::number and QString::arg on a double, which print six significant
   * digits, rounded, in the `g` format, and for QVariant's shortest text of a
   * double. They agree with it on zero and on every value with at most six
   * significant digits, at most six fraction digits and a magnitude from
   * 0.0001 up to (not including) 1000000. Outside that range Qt switches to
   * exponent notation, and with more digits it rounds.
   */
  function Fmt(x: real): (r: string)
    ensures |r| > 0
  {
    if x < 0.0 then "-" + FmtUnsigned(-x) else FmtUnsigned(x)
  }

  function FmtUnsigned(x: real): (r: string)
    requires x >= 0.0
    ensures |r| > 0
  {
    var frac := TrimTrailingZeros(PaddedDigits(ScaledFraction(x), FractionDigits));
    NatToString(x.Floor) + (if |frac| == 0 then "" else "." + frac)
  }

  /** The first six fraction digits of `x`, as a number below one million. */
  function ScaledFraction(x: real): (d: nat)
    requires x >= 0.0
    ensures d < Pow10(FractionDigits)
  {
    assert Pow10(FractionDigits) == 1000000;
    var f := x - x.Floor as real;
    assert 0.0 <= f < 1.0;
    (f * 1000000.0).Floor
  }

  lemma {:induction false} PaddedZeros(width: nat)
    ensures TrimTrailingZeros(PaddedDigits(0, width)) == ""
  {
    if width > 0 {
      PaddedZeros(width - 1);
      var q := PaddedDigits(0, width - 1);
      var p := PaddedDigits(0, width);
      assert DigitChar(0) == '0';
      assert p == q + ['0'];
      assert p[..|p| - 1] == q;
    }
  }

  lemma ScaledFractionWhole(n: nat)
    ensures ScaledFraction(n as real) == 0
  {
    var x := n as real;
    assert x.Floor == n;
    assert x - x.Floor as real == 0.0;
  }

  lemma FmtUnsignedWhole(n: nat)
    ensures FmtUnsigned(n as real) == NatToString(n)
  {
    ScaledFractionWhole(n);
    PaddedZeros(FractionDigits);
    assert (n as real).Floor == n;
  }

  /** A whole number is printed exactly as the integer it is. */
  lemma FmtWhole(i: int)
    ensures Fmt(i as real) == IntToString(i)
  {
    if i < 0 {
      var n: nat := -i;
      assert -(i as real) == n as real;
      FmtUnsignedWhole(n);
      assert Fmt(i as real) == "-" + NatToString(n);
    } else {
      FmtUnsignedWhole(i);
    }
  }

  // ---------------------------------------------------------------------------
  // Splitting

  /**
   * QString::split on one character, keeping empty parts: the pieces between
   * occurrences of `sep`, in order (one more piece than there are separators).
   */
  function Split(s: string, sep: char): (r: seq<string>)
    ensures |r| > 0
    decreases |s|
  {
    var k := IndexOf(s, sep);
    if k == |s| then [s] else [s[..k]] + Split(s[k + 1..], sep)
  }

  lemma {:induction false} SplitJoin(s: string, sep: char)
    ensures Join(Split(s, sep), [sep]) == s
    decreases |s|
  {
    var k := IndexOf(s, sep);
    if k < |s| {
      var head := s[..k];
      var tail := s[k + 1..];
      var rest := Split(tail, sep);
      assert Split(s, sep) == [head] + rest;
      SplitJoin(tail, sep);
      assert ([head] + rest)[1..] == rest;
      calc {
        Join(Split(s, sep), [sep]);
        head + [sep] + Join(rest, [sep]);
        head + [sep] + tail;
        { assert s == s[..k] + [s[k]] + s[k + 1..]; }
        s;
      }
    } else {
      assert Split(s, sep) == [s];
    }
  }
}

/**
 * The quoting helpers of the target expression language that the converter
 * calls (QgsExpression::quotedColumnRef, quotedString, quotedValue and
 * createFieldEqualityExpression). They live outside the converter; the model
 * gives them the behaviour the converter's tests fix: a column reference is
 * wrapped in double quotes, a string literal in single quotes, the quote
 * character doubled inside.
 */
module Quoting {
  import opened Text
  import opened Json

  /** `s` with every `q` doubled. */
  function Escape(s: string, q: char): (r: string)
    ensures |r| >= |s|
    decreases |s|
  {
    if |s| == 0 then ""
    else (if s[0] == q then [q, q] else [s[0]]) + Escape(s[1..], q)
  }

  /** Text without the quote character needs no escaping. */
  lemma {:induction false} EscapeNoQuote(s: string, q: char)
    requires q !in s
    ensures Escape(s, q) == s
    decreases |s|
  {
    if |s| > 0 {
      assert s[0] != q;
      EscapeNoQuote(s[1..], q);
      assert s == [s[0]] + s[1..];
    }
  }

  /** Reads an escaped body back: a doubled `q` stands for one `q`. */
  function Unescape(t: string, q: char): string
    decreases |t|
  {
    if |t| == 0 then ""
    else if |t| >= 2 && t[0] == q && t[1] == q then [q] + Unescape(t[2..], q)
    else [t[0]] + Unescape(t[1..], q)
  }

  lemma {:induction false} UnescapeEscape(s: string, q: char)
    ensures Unescape(Escape(s, q), q) == s
    decreases |s|
  {
    if |s| > 0 {
      var rest := Escape(s[1..], q);
      UnescapeEscape(s[1..], q);
      if s[0] == q {
        assert Escape(s, q) == [q, q] + rest;
        assert ([q, q] + rest)[2..] == rest;
      } else {
        assert Escape(s, q) == [s[0]] + rest;
        assert ([s[0]] + rest)[1..] == rest;
      }
      assert s == [s[0]] + s[1..];
    }
  }

  /** QgsExpression::quotedColumnRef: `"name"`, inner double quotes doubled. */
  function QuotedColumnRef(name: string): (r: string)
    ensures |r| >= 2 && r[0] == '"' && r[|r| - 1] == '"'
  {
    "\"" + Escape(name, '"') + "\""
  }

  /** QgsExpression::quotedString: `'text'`, inner single quotes doubled. */
  function QuotedString(text: string): string
  {
    "'" + Escape(text, '\'') + "'"
  }

  /** Strips the outer quote characters and undoubles the inner ones. */
  function Unquote(t: string, q: char): string
  {
    if |t| >= 2 then Unescape(t[1..|t| - 1], q) else ""
  }

  /** A quoted column reference names exactly the column it was made from. */
  lemma ColumnRefRoundTrip(name: string)
    ensures Unquote(QuotedColumnRef(name), '"') == name
  {
    var r := QuotedColumnRef(name);
    assert r[1..|r| - 1] == Escape(name, '"');
    UnescapeEscape(name, '"');
  }

  /** A quoted string literal denotes exactly the text it was made from. */
  lemma StringLiteralRoundTrip(text: string)
    ensures Unquote(QuotedString(text), '\'') == text
  {
    var r := QuotedString(text);
    assert r[1..|r| - 1] == Escape(text, '\'');
    UnescapeEscape(text, '\'');
  }

  /** Distinct columns get distinct references. */
  lemma ColumnRefInjective(a: string, b: string)
    requires QuotedColumnRef(a) == QuotedColumnRef(b)
    ensures a == b
  {
    ColumnRefRoundTrip(a);
    ColumnRefRoundTrip(b);
  }

  /**
   * QgsExpression::quotedValue: NULL, TRUE/FALSE, numbers as their text, a
   * list as an `array( ... )` of its quoted elements and everything else as
   * a quoted string literal of its text.
   */
  function QuotedValue(v: Json): (r: string)
    ensures v.Str? ==> r == QuotedString(v.s)
    ensures v.Bool? ==> r == (if v.b then "TRUE" else "FALSE")
    ensures IsNumber(v) ==> r == ToText(v)
    ensures v.Null? ==> r == "NULL"
    ensures v.List? ==> r == "array( " + Join(QuotedElements(v.items), ", ") + " )"
    ensures v.Object? ==> r == "''"
    decreases v, 1
  {
    match v
    case Null => "NULL"
    case Bool(b) => if b then "TRUE" else "FALSE"
    case Int(_) => ToText(v)
    case Num(_) => ToText(v)
    case List(items) => "array( " + Join(QuotedElements(items), ", ") + " )"
    case _ => QuotedString(ToText(v))
  }

  /** The quoted value of every element, in order. */
  function QuotedElements(items: seq<Json>): (r: seq<string>)
    ensures |r| == |items|
    ensures forall k :: 0 <= k < |items| ==> r[k] == QuotedValue(items[k])
    decreases items, 0
  {
    if |items| == 0 then [] else [QuotedValue(items[0])] + QuotedElements(items[1..])
  }

  /** A list of one string is an array literal holding that string's literal. */
  lemma SingletonArray(text: string)
    ensures QuotedValue(List([Str(text)])) == "array( " + QuotedString(text) + " )"
  {
    assert QuotedElements([Str(text)]) == [QuotedString(text)];
  }

  /**
   * QgsExpression::createFieldEqualityExpression: `"field" = value`, or
   * `"field" IS NULL` for a null value.
   */
  function FieldEquality(field: string, v: Json): (r: string)
    ensures v.Null? ==> r == QuotedColumnRef(field) + " IS NULL"
    ensures !v.Null? ==> r == QuotedColumnRef(field) + " = " + QuotedValue(v)
  {
    if v.Null? then QuotedColumnRef(field) + " IS NULL"
    else QuotedColumnRef(field) + " = " + QuotedValue(v)
  }

  /**
   * A field equality reads back as the field and the value it compares: it
   * starts with the column reference, which names the field; a null value
   * gives `IS NULL`; a string value gives ` = ` and a literal denoting the
   * string; a number gives ` = ` and the number's text.
   */
  lemma FieldEqualityReadsBack(field: string, v: Json)
    ensures var r := FieldEquality(field, v); var c := QuotedColumnRef(field);
      && |c| <= |r| && r[..|c|] == c && Unquote(c, '"') == field
      && (v.Null? ==> r[|c|..] == " IS NULL")
      && (!v.Null? ==> |c| + 3 <= |r| && r[|c|..|c| + 3] == " = ")
      && (v.Str? ==> Unquote(r[|c| + 3..], '\'') == v.s)
      && (IsNumber(v) ==> r[|c| + 3..] == ToText(v))
  {
    var c := QuotedColumnRef(field);
    ColumnRefRoundTrip(field);
    if v.Null? {
      assert FieldEquality(field, v) == c + " IS NULL";
    } else {
      var r := c + " = " + QuotedValue(v);
      assert FieldEquality(field, v) == r;
      assert r[..|c|] == c;
      assert r[|c|..|c| + 3] == " = ";
      assert r[|c| + 3..] == QuotedValue(v);
      if v.Str? {
        StringLiteralRoundTrip(v.s);
      }
    }
  }
}

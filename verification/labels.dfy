/**
 * The label text of a symbol layer: compiling a `text-field` template such
 * as `{name_en} - {name_fr}` into a field name or a `concat(...)`
 * expression, the `["format", ...]` form, `text-transform`, and splitting a
 * font name into family and style.
 */
module Labels {
  import opened Text
  import opened Json
  import opened Context
  import opened Quoting
  import opened Expressions

  /** The label's field name or expression text, and which of the two it is. */
  datatype LabelField = LabelField(text: string, isExpression: bool)

  // ---------------------------------------------------------------------
  // Template splitting

  /**
   * `^{([^}]+)}$`: the whole text is one field reference. PCRE's `$` also
   * matches just before a final newline, so `{name}` followed by a newline
   * counts too.
   */
  predicate IsSingleFieldAt(s: string)
  {
    |s| >= 3 && s[0] == '{' && s[|s| - 1] == '}' && '}' !in s[1..|s| - 1]
  }

  predicate IsSingleField(s: string)
  {
    IsSingleFieldAt(s) || (|s| > 0 && s[|s| - 1] == '\n' && IsSingleFieldAt(s[..|s| - 1]))
  }

  /** The field name of a single-field template. */
  function SingleFieldName(s: string): (name: string)
    requires IsSingleField(s)
    ensures |name| > 0 && '}' !in name
  {
    if IsSingleFieldAt(s) then s[1..|s| - 1]
    else
      assert s[..|s| - 1][1..|s| - 2] == s[1..|s| - 2];
      s[1..|s| - 2]
  }

  /**
   * `(?={[^}]+})` matches before `t`: `t` starts with an opening brace and a
   * non-empty run of characters up to a closing brace.
   */
  predicate StartsField(t: string)
  {
    |t| >= 3 && t[0] == '{' && 0 < IndexOf(t[1..], '}') < |t| - 1
  }

  /** The first position at or after `from` where a field reference starts, |t| when there is none. */
  function NextBoundary(t: string, from: nat): (p: nat)
    ensures from <= p || p == |t|
    ensures p <= |t|
    ensures p < |t| ==> StartsField(t[p..])
    ensures forall q :: from <= q < p ==> !StartsField(t[q..])
    decreases |t| - from
  {
    if from >= |t| then |t|
    else if StartsField(t[from..]) then from
    else NextBoundary(t, from + 1)
  }

  /** The pieces of `t`, which starts a piece: it runs to the next boundary, the rest is split again. */
  function SplitFrom(t: string): (pieces: seq<string>)
    ensures |pieces| > 0
    ensures Concat(pieces) == t
    decreases |t|
  {
    var nb := NextBoundary(t, 1);
    if nb >= |t| then [t]
    else
      assert t == t[..nb] + t[nb..];
      [t[..nb]] + SplitFrom(t[nb..])
  }

  /**
   * QString::split by the field-reference lookahead: the text before the
   * first reference (possibly empty), then one piece per reference running
   * up to the next. Without any reference the text is a single piece.
   */
  function SplitTemplate(s: string): (pieces: seq<string>)
    ensures |pieces| > 0
    ensures Concat(pieces) == s
    ensures |pieces| > 1 <==> NextBoundary(s, 0) < |s|
  {
    var b := NextBoundary(s, 0);
    if b >= |s| then [s]
    else
      assert s == s[..b] + s[b..];
      [s[..b]] + SplitFrom(s[b..])
  }

  /**
   * The terms a piece contributes: the column named between its first
   * character and the first closing brace, then the literal up to the next
   * closing brace when that is not empty.
   */
  function PieceTerms(piece: string): (terms: seq<string>)
    ensures 1 <= |terms| <= 2
  {
    var split := Split(piece, '}');
    var head := split[0];
    var literal := if |split| > 1 then split[1] else "";
    [QuotedColumnRef(if |head| > 0 then head[1..] else "")] + (if literal != "" then [QuotedString(literal)] else [])
  }

  /** The terms of every non-empty piece, in order. */
  function TemplateTerms(pieces: seq<string>): (terms: seq<string>)
    decreases |pieces|
  {
    if |pieces| == 0 then []
    else (if pieces[0] == "" then [] else PieceTerms(pieces[0])) + TemplateTerms(pieces[1..])
  }

  /**
   * processLabelField: a single `{field}` gives the bare field name; a text
   * with field references gives `concat(...)` over its pieces' terms; any
   * other text is taken as a field name.
   */
  function ProcessLabelField(s: string): (r: LabelField)
    ensures IsSingleField(s) ==> r == LabelField(SingleFieldName(s), false)
    ensures !IsSingleField(s) && NextBoundary(s, 0) == |s| ==> r == LabelField(s, false)
    ensures r.isExpression <==> !IsSingleField(s) && NextBoundary(s, 0) < |s|
  {
    if IsSingleField(s) then LabelField(SingleFieldName(s), false)
    else
      var pieces := SplitTemplate(s);
      if |pieces| > 1 then LabelField("concat(" + Join(TemplateTerms(pieces), ",") + ")", true)
      else LabelField(s, false)
  }

  // ---------------------------------------------------------------------
  // Templates built from segments

  /** A field reference followed by literal text. */
  datatype Segment = Segment(field: string, literal: string)

  /** A segment the converter reads back as written: a non-empty field name and plain literal text. */
  predicate PlainSegment(g: Segment)
  {
    |g.field| > 0 && '{' !in g.field && '}' !in g.field && '\n' !in g.field
    && '{' !in g.literal && '}' !in g.literal && '\n' !in g.literal
  }

  function SegmentText(g: Segment): string
  {
    "{" + g.field + "}" + g.literal
  }

  /** The template `{f1}l1{f2}l2...`. */
  function Render(segments: seq<Segment>): (s: string)
    decreases |segments|
  {
    if |segments| == 0 then "" else SegmentText(segments[0]) + Render(segments[1..])
  }

  /** What a segment should compile to: its column, then its literal if any. */
  function SegmentTerms(g: Segment): seq<string>
  {
    [QuotedColumnRef(g.field)] + (if g.literal != "" then [QuotedString(g.literal)] else [])
  }

  function SegmentsTerms(segments: seq<Segment>): seq<string>
    decreases |segments|
  {
    if |segments| == 0 then [] else SegmentTerms(segments[0]) + SegmentsTerms(segments[1..])
  }

  /** The text of each segment, in order. */
  function SegmentTexts(segments: seq<Segment>): (texts: seq<string>)
    ensures |texts| == |segments|
    ensures forall i :: 0 <= i < |segments| ==> texts[i] == SegmentText(segments[i])
  {
    seq(|segments|, i requires 0 <= i < |segments| => SegmentText(segments[i]))
  }

  /** A rendered segment starts a field reference, whatever follows it. */
  lemma SegmentStartsField(g: Segment, rest: string)
    requires PlainSegment(g)
    ensures StartsField(SegmentText(g) + rest)
  {
    var t := SegmentText(g) + rest;
    assert t[1..] == g.field + ("}" + g.literal + rest);
    assert t[1..][|g.field|] == '}';
    assert forall j :: 0 <= j < |g.field| ==> t[1..][j] == g.field[j];
    IndexOfPrefix(g.field, "}" + g.literal + rest, '}');
  }

  /** The first `c` in `a + b`, when `a` has none, is |a| plus the first in `b`. */
  lemma {:induction false} IndexOfPrefix(a: string, b: string, c: char)
    requires c !in a
    ensures IndexOf(a + b, c) == |a| + IndexOf(b, c)
    decreases |a|
  {
    if |a| > 0 {
      assert (a + b)[0] == a[0];
      assert (a + b)[1..] == a[1..] + b;
      IndexOfPrefix(a[1..], b, c);
    } else {
      assert a + b == b;
    }
  }

  /** Inside a segment no field reference starts after its first character. */
  lemma {:induction false} NoBoundaryInside(g: Segment, rest: string, from: nat)
    requires PlainSegment(g)
    requires 1 <= from <= |SegmentText(g)|
    requires rest == "" || StartsField(rest)
    ensures NextBoundary(SegmentText(g) + rest, from) == |SegmentText(g)| || (rest == "" && NextBoundary(SegmentText(g) + rest, from) == |SegmentText(g) + rest|)
    decreases |SegmentText(g)| - from
  {
    var t := SegmentText(g) + rest;
    var n := |SegmentText(g)|;
    if from == n {
      if rest == "" {
        assert from >= |t|;
      } else {
        assert t[from..] == rest;
      }
    } else {
      assert t[from] == SegmentText(g)[from];
      assert SegmentText(g)[from] != '{' by {
        if from <= |g.field| {
          assert SegmentText(g)[from] == g.field[from - 1];
        } else if from > |g.field| + 1 {
          assert SegmentText(g)[from] == g.literal[from - |g.field| - 2];
        }
      }
      assert !StartsField(t[from..]);
      NoBoundaryInside(g, rest, from + 1);
    }
  }

  /** The pieces of a rendered template are its segments. */
  lemma {:induction false} SplitRendered(segments: seq<Segment>)
    requires |segments| > 0
    requires forall i :: 0 <= i < |segments| ==> PlainSegment(segments[i])
    ensures SplitFrom(Render(segments)) == SegmentTexts(segments)
    decreases |segments|
  {
    var g := segments[0];
    var rest := Render(segments[1..]);
    var t := Render(segments);
    assert t == SegmentText(g) + rest;
    if |segments| > 1 {
      assert rest == SegmentText(segments[1]) + Render(segments[2..]) by {
        assert segments[1..][1..] == segments[2..];
      }
      SegmentStartsField(segments[1], Render(segments[2..]));
    } else {
      assert rest == "";
    }
    NoBoundaryInside(g, rest, 1);
    var nb := NextBoundary(t, 1);
    if |segments| == 1 {
      assert nb == |t|;
    } else {
      assert nb == |SegmentText(g)|;
      assert t[..nb] == SegmentText(g);
      assert t[nb..] == rest;
      SplitRendered(segments[1..]);
    }
  }

  /** A plain segment's text splits at its closing brace into the braced field and the literal. */
  lemma SegmentPieceTerms(g: Segment)
    requires PlainSegment(g)
    ensures PieceTerms(SegmentText(g)) == SegmentTerms(g)
  {
    var piece := SegmentText(g);
    IndexOfPrefix("{" + g.field, "}" + g.literal, '}');
    assert piece == ("{" + g.field) + ("}" + g.literal);
    assert IndexOf(piece, '}') == |g.field| + 1;
    assert piece[..|g.field| + 1] == "{" + g.field;
    assert piece[|g.field| + 2..] == g.literal;
    assert IndexOf(g.literal, '}') == |g.literal|;
    assert Split(piece, '}') == ["{" + g.field] + Split(g.literal, '}');
    assert ("{" + g.field)[1..] == g.field;
  }

  lemma {:induction false} TermsOfSegments(segments: seq<Segment>)
    requires forall i :: 0 <= i < |segments| ==> PlainSegment(segments[i])
    ensures TemplateTerms(SegmentTexts(segments)) == SegmentsTerms(segments)
    decreases |segments|
  {
    var pieces := SegmentTexts(segments);
    if |segments| > 0 {
      assert pieces[0] != "";
      SegmentPieceTerms(segments[0]);
      assert pieces[1..] == SegmentTexts(segments[1..]);
      TermsOfSegments(segments[1..]);
    }
  }

  /**
   * A template of field references with plain literals between them
   * compiles to `concat` over the quoted columns and the non-empty
   * literals, in order; only a lone reference with nothing after it is a
   * bare field name.
   */
  lemma {:induction false} RenderedTemplate(segments: seq<Segment>)
    requires |segments| > 0
    requires forall i :: 0 <= i < |segments| ==> PlainSegment(segments[i])
    ensures |segments| == 1 && segments[0].literal == "" ==>
      ProcessLabelField(Render(segments)) == LabelField(segments[0].field, false)
    ensures |segments| > 1 || segments[0].literal != "" ==>
      ProcessLabelField(Render(segments)) == LabelField("concat(" + Join(SegmentsTerms(segments), ",") + ")", true)
  {
    if |segments| == 1 && segments[0].literal == "" {
      LoneReference(segments);
    } else {
      LongerTemplate(segments);
    }
  }

  /** The start of a rendered template: its first segment, which opens with a field reference. */
  lemma RenderedStart(segments: seq<Segment>)
    requires |segments| > 0
    requires forall i :: 0 <= i < |segments| ==> PlainSegment(segments[i])
    ensures Render(segments) == SegmentText(segments[0]) + Render(segments[1..])
    ensures NextBoundary(Render(segments), 0) == 0
  {
    var s := Render(segments);
    var g := segments[0];
    var rest := Render(segments[1..]);
    assert s == SegmentText(g) + rest;
    SegmentStartsField(g, rest);
    assert s[0..] == s;
  }

  /** `{field}` alone is the bare field name. */
  lemma LoneReference(segments: seq<Segment>)
    requires |segments| == 1 && segments[0].literal == ""
    requires PlainSegment(segments[0])
    ensures ProcessLabelField(Render(segments)) == LabelField(segments[0].field, false)
  {
    RenderedStart(segments);
    var s := Render(segments);
    var g := segments[0];
    assert Render(segments[1..]) == "";
    assert s == "{" + g.field + "}";
    assert s[1..|s| - 1] == g.field;
    assert IsSingleFieldAt(s);
  }

  /** A closing brace well inside the text rules out a lone reference, with or without a final newline. */
  lemma BraceInside(x: string, k: int)
    requires 1 <= k < |x| - 2 && x[k] == '}'
    ensures !IsSingleField(x)
  {
    assert x[1..|x| - 1][k - 1] == '}';
    assert x[..|x| - 1][1..|x| - 2][k - 1] == '}';
  }

  /** A segment followed by more text, or with a literal of its own, is not a lone reference. */
  lemma SegmentNotLone(g: Segment, rest: string)
    requires PlainSegment(g)
    requires |rest| >= 3 || (rest == "" && g.literal != "")
    ensures !IsSingleField(SegmentText(g) + rest)
  {
    var s := SegmentText(g) + rest;
    if rest == "" {
      assert s[|s| - 1] == g.literal[|g.literal| - 1];
    } else {
      assert s[|g.field| + 1] == '}';
      BraceInside(s, |g.field| + 1);
    }
  }

  /** Anything more than `{field}` is not a lone reference. */
  lemma NotLone(segments: seq<Segment>)
    requires |segments| > 0
    requires forall i :: 0 <= i < |segments| ==> PlainSegment(segments[i])
    requires |segments| > 1 || segments[0].literal != ""
    ensures !IsSingleField(Render(segments))
  {
    RenderedStart(segments);
    if |segments| > 1 {
      RenderedStart(segments[1..]);
    }
    SegmentNotLone(segments[0], Render(segments[1..]));
  }

  /** A longer template becomes `concat` over its terms. */
  lemma LongerTemplate(segments: seq<Segment>)
    requires |segments| > 0
    requires forall i :: 0 <= i < |segments| ==> PlainSegment(segments[i])
    requires |segments| > 1 || segments[0].literal != ""
    ensures ProcessLabelField(Render(segments)) == LabelField("concat(" + Join(SegmentsTerms(segments), ",") + ")", true)
  {
    var s := Render(segments);
    var inner := SegmentTexts(segments);
    assert SplitTemplate(s) == [""] + inner by {
      RenderedStart(segments);
      SplitRendered(segments);
      assert s[..0] == "" && s[0..] == s;
    }
    assert TemplateTerms([""] + inner) == SegmentsTerms(segments) by {
      TermsOfSegments(segments);
      assert ([""] + inner)[1..] == inner;
    }
    NotLone(segments);
    SplitIsConcat(s);
  }

  /** A text that is not a lone reference and splits into several pieces compiles to `concat` over their terms. */
  lemma SplitIsConcat(s: string)
    requires !IsSingleField(s) && |SplitTemplate(s)| > 1
    ensures ProcessLabelField(s) == LabelField("concat(" + Join(TemplateTerms(SplitTemplate(s)), ",") + ")", true)
  {
  }


  // ---------------------------------------------------------------------
  // text-field

  const NonImplementedTextFieldWarning := "Skipping non-implemented text-field expression"

  /** One part of a `format` list: a field name is quoted as a column, an expression kept. */
  function FormatPart(v: Json): string
  {
    var f := ProcessLabelField(ToText(v));
    if f.isExpression then f.text else QuotedColumnRef(f.text)
  }

  /** The parts at elements 1, 3, 5, ... of a `format` list: its texts, skipping their options. */
  function FormatParts(list: seq<Json>): (parts: seq<string>)
    ensures |parts| == |list| / 2
  {
    MapOdd(list, FormatPart)
  }

  /** `f` applied to the elements at odd positions 1, 3, 5, ... of `list`, in order. */
  function MapOdd<T>(list: seq<Json>, f: Json -> T): (r: seq<T>)
    ensures |r| == |list| / 2
    ensures forall k :: 0 <= k < |r| ==> r[k] == f(At(list, 1 + 2 * k))
  {
    seq(|list| / 2, k => f(At(list, 1 + 2 * k)))
  }

  /** A `format` list: more than two elements headed by "format". */
  predicate IsFormat(list: seq<Json>)
  {
    |list| > 2 && ToText(list[0]) == "format"
  }

  /**
   * The label of a `text-field` value: a string is a template; a `format`
   * list concatenates its texts; any other list is an expression. Anything
   * else leaves the label empty and warns.
   */
  function TextField(v: Json): (r: Warned<LabelField>)
    ensures v.Str? ==> r == Warned(ProcessLabelField(v.s), [])
    ensures v.List? && IsFormat(v.items) ==>
      r == Warned(LabelField("concat(" + Join(FormatParts(v.items), ",") + ")", true), [])
    ensures v.List? && !IsFormat(v.items) ==>
      r == Warned(LabelField(ParseExpression(v.items).value, true), ParseExpression(v.items).warnings)
    ensures !v.Str? && !v.List? ==> r == Warned(LabelField("", false), [NonImplementedTextFieldWarning])
  {
    match v
    case Str(s) => Warned(ProcessLabelField(s), [])
    case List(items) =>
      if IsFormat(items) then Warned(LabelField("concat(" + Join(FormatParts(items), ",") + ")", true), [])
      else
        var e := ParseExpression(items);
        Warned(LabelField(e.value, true), e.warnings)
    case _ => Warned(LabelField("", false), [NonImplementedTextFieldWarning])
  }

  /** A `format` part holding a plain field name quotes it as a column, and unquoting gives the name back. */
  lemma NamePartRoundTrip(v: Json)
    requires !IsSingleField(ToText(v)) && NextBoundary(ToText(v), 0) == |ToText(v)|
    ensures Unquote(FormatPart(v), '"') == ToText(v)
  {
    var name := ToText(v);
    assert ProcessLabelField(name) == LabelField(name, false);
    ColumnRefRoundTrip(name);
  }

  /** Every `format` part that is a plain field name becomes that quoted column. */
  lemma FormatOfNames(list: seq<Json>)
    requires IsFormat(list)
    requires forall k :: 0 <= k < |FormatParts(list)| ==>
      !IsSingleField(ToText(list[1 + 2 * k])) && NextBoundary(ToText(list[1 + 2 * k]), 0) == |ToText(list[1 + 2 * k])|
    ensures TextField(List(list)).value.isExpression
    ensures forall k :: 0 <= k < |FormatParts(list)| ==>
      Unquote(FormatParts(list)[k], '"') == ToText(list[1 + 2 * k])
  {
    var parts := FormatParts(list);
    assert TextField(List(list)).value == LabelField("concat(" + Join(parts, ",") + ")", true);
    forall k | 0 <= k < |parts|
      ensures Unquote(parts[k], '"') == ToText(list[1 + 2 * k])
    {
      assert At(list, 1 + 2 * k) == list[1 + 2 * k];
      NamePartRoundTrip(list[1 + 2 * k]);
    }
  }


  // ---------------------------------------------------------------------
  // text-transform

  /** The field as an expression operand: an expression as is, a field name as a quoted column. */
  function FieldOperand(field: LabelField): string
  {
    if field.isExpression then field.text else QuotedColumnRef(field.text)
  }

  /**
   * `text-transform`: uppercase and lowercase wrap the field in upper() or
   * lower(); any value at all makes the label an expression, an unknown
   * one with the field text unchanged.
   */
  function TextTransform(field: LabelField, transform: string): (r: LabelField)
    ensures r.isExpression
    ensures transform != "uppercase" && transform != "lowercase" ==> r.text == field.text
  {
    if transform == "uppercase" then LabelField("upper(" + FieldOperand(field) + ")", true)
    else if transform == "lowercase" then LabelField("lower(" + FieldOperand(field) + ")", true)
    else LabelField(field.text, true)
  }

  /**
   * A case transform keeps what the label refers to: the argument of
   * upper() / lower() is the expression itself, or a column reference that
   * names exactly the field.
   */
  lemma TransformKeepsField(field: LabelField, transform: string)
    requires transform == "uppercase" || transform == "lowercase"
    ensures TextTransform(field, transform).text
         == (if transform == "uppercase" then "upper(" else "lower(") + FieldOperand(field) + ")"
    ensures field.isExpression ==> FieldOperand(field) == field.text
    ensures !field.isExpression ==> Unquote(FieldOperand(field), '"') == field.text
  {
    ColumnRefRoundTrip(field.text);
  }

  /** A label that is already an expression is not changed by an unknown transform. */
  lemma UnknownTransformKeepsExpression(field: LabelField, transform: string)
    requires field.isExpression && transform != "uppercase" && transform != "lowercase"
    ensures TextTransform(field, transform) == field
  {
  }

  // ---------------------------------------------------------------------
  // text-max-width and text-font

  /** Ems to characters: an em is read as 1.4 characters, since characters tend to be narrower. */
  const EmToChars: real := 1.4

  const NonImplementedTextFontWarning := "Skipping non-implemented text-font expression"

  /** A label font: a family, with a style when the family was found to have one. */
  datatype Font = Font(family: string, style: Option<string>)

  /** The font made by splitting the words before word `j`: family, then style. */
  function SplitAt(words: seq<string>, j: nat): Font
    requires j <= |words|
  {
    Font(Join(words[..j], " "), Some(Join(words[j..], " ")))
  }

  /** The font database knows the family and style of the split before word `j`. */
  predicate Known(words: seq<string>, j: nat, hasStyle: (string, string) -> bool)
    requires j <= |words|
  {
    hasStyle(SplitAt(words, j).family, SplitAt(words, j).style.value)
  }

  /**
   * The font-splitting loop from split point `i` on: the first split of the
   * words into a family the font database knows with the remaining words as
   * its style; failing that the whole name as the family.
   */
  function FontFrom(words: seq<string>, i: nat, name: string, hasStyle: (string, string) -> bool): (f: Font)
    requires i >= 1
    ensures f.style.None? ==> f.family == name && forall j :: i <= j < |words| ==> !Known(words, j, hasStyle)
    ensures f.style.Some? ==> exists j :: i <= j < |words| && f == SplitAt(words, j) && Known(words, j, hasStyle)
                                          && forall j' :: i <= j' < j ==> !Known(words, j', hasStyle)
    decreases |words| - i
  {
    if i >= |words| then Font(name, None)
    else if Known(words, i, hasStyle) then SplitAt(words, i)
    else FontFrom(words, i + 1, name, hasStyle)
  }

  /** The font of a font name: split at spaces and searched for a family and style. */
  function FontOf(name: string, ctx: ConversionContext): Font
  {
    FontFrom(Split(name, ' '), 1, name, ctx.fontFamilyHasStyle)
  }

  /** Joining the two sides of a split point gives the whole joined list. */
  lemma {:induction false} JoinSplitAt(parts: seq<string>, i: nat, sep: string)
    requires 1 <= i < |parts|
    ensures Join(parts[..i], sep) + sep + Join(parts[i..], sep) == Join(parts, sep)
    decreases i
  {
    if i == 1 {
      assert parts[..1] == [parts[0]];
      assert parts[1..] == parts[i..];
    } else {
      var tail := parts[1..];
      JoinSplitAt(tail, i - 1, sep);
      assert tail[..i - 1] == parts[1..i];
      assert tail[i - 1..] == parts[i..];
      assert parts[..i][1..] == parts[1..i];
      assert Join(parts[..i], sep) == parts[0] + sep + Join(parts[1..i], sep);
    }
  }

  /** A family and style found by the search spell the font name with one space between them. */
  lemma FontRecombines(name: string, ctx: ConversionContext)
    ensures var f := FontOf(name, ctx);
      f.style.Some? ==> f.family + " " + f.style.value == name
    ensures FontOf(name, ctx).style.None? ==> FontOf(name, ctx).family == name
  {
    var words := Split(name, ' ');
    var f := FontOf(name, ctx);
    if f.style.Some? {
      var j :| 1 <= j < |words| && f == SplitAt(words, j);
      JoinSplitAt(words, j, " ");
      SplitJoin(name, ' ');
    }
  }

  /**
   * The font named by `text-font`: the first name of a list, or a string;
   * any other value gives no font and a warning.
   */
  function TextFont(v: Json, ctx: ConversionContext): (r: Warned<Option<Font>>)
    ensures (v.List? || v.Str?) <==> r.value.Some?
    ensures v.Str? ==> r.value == Some(FontOf(v.s, ctx))
    ensures v.List? ==> r.value == Some(FontOf(ToText(At(v.items, 0)), ctx))
    ensures r.value.None? ==> r.warnings == [NonImplementedTextFontWarning]
    ensures r.value.Some? ==> r.warnings == []
  {
    if v.List? then Warned(Some(FontOf(ToText(At(v.items, 0)), ctx)), [])
    else if v.Str? then Warned(Some(FontOf(v.s, ctx)), [])
    else Warned(None, [NonImplementedTextFontWarning])
  }
}

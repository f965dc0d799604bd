/**
 * Filter and value expressions. A Mapbox GL expression (a JSON list whose
 * head names the operator) is translated into the text of a QGIS
 * expression: comparisons, `has`, `in`, the `all` / `any` / `none`
 * combinators, `match`, `get` and `to-string`. Translation is by recursion
 * over the expression tree; a sub-expression that cannot be translated
 * empties its combinator and pushes a warning.
 */
module Expressions {
  import opened Text
  import opened Json
  import opened Context
  import opened Quoting

  const UnsupportedExpressionWarning := "Skipping unsupported expression"
  const NonSupportedExpressionWarning := "Skipping non-supported expression"
  const UnsupportedPartWarning := "Skipping unsupported expression part"

  /** The pseudo-column holding a feature's geometry type. */
  const GeometryTypeColumn := "_geom_type"

  /**
   * parseKey: `$type` is the geometry-type pseudo-column; a list such as
   * `["get", name]` names its second element verbatim (a one-element list
   * its only element); any other value is a quoted column reference.
   */
  function ParseKey(v: Json): (r: string)
    ensures ToText(v) == "$type" ==> r == GeometryTypeColumn
    ensures v.List? && |v.items| > 1 ==> r == ToText(v.items[1])
    ensures v.List? && |v.items| <= 1 ==> r == ToText(At(v.items, 0))
    ensures !v.List? && ToText(v) != "$type" ==> Unquote(r, '"') == ToText(v)
  {
    if ToText(v) == "$type" then GeometryTypeColumn
    else if v.List? then
      if |v.items| > 1 then ToText(v.items[1]) else ToText(At(v.items, 0))
    else
      ColumnRefRoundTrip(ToText(v));
      QuotedColumnRef(ToText(v))
  }

  /** A plain column name becomes a quoted column reference. */
  lemma KeyOfName(name: string)
    requires name != "$type"
    ensures ParseKey(Str(name)) == QuotedColumnRef(name)
  {
  }

  /** `==` and `!=` become the NULL-aware IS and IS NOT; other comparisons keep their symbol. */
  function ComparisonOperator(op: string): string
  {
    if op == "==" then "IS" else if op == "!=" then "IS NOT" else op
  }

  predicate IsComparison(op: string)
  {
    op == "==" || op == "!=" || op == ">=" || op == ">" || op == "<=" || op == "<"
  }

  predicate IsCombinator(op: string)
  {
    op == "all" || op == "any" || op == "none"
  }

  /**
   * The text of the `all` / `any` / `none` combinators over translated
   * parts: each part parenthesised, joined by AND / OR; `none` negates every
   * part and joins them by AND.
   */
  function Combine(op: string, parts: seq<string>): string
  {
    if op == "none" then "NOT (" + Join(parts, ") AND NOT (") + ")"
    else "(" + Join(parts, if op == "all" then ") AND (" else ") OR (") + ")"
  }

  /** `in`: the key is one of the values; `!in`: it is missing or none of them. */
  function MembershipText(op: string, key: string, parts: seq<string>): string
  {
    var list := Join(parts, ", ");
    if op == "in" then key + " IN (" + list + ")"
    else "(" + key + " IS NULL OR " + key + " NOT IN (" + list + "))"
  }

  // ---------------------------------------------------------------------
  // match

  /** The quoted literals of a list of labels. */
  function QuotedValues(labels: seq<Json>): (r: seq<string>)
    ensures |r| == |labels|
    ensures forall k :: 0 <= k < |r| ==> r[k] == QuotedValue(labels[k])
  {
    seq(|labels|, k requires 0 <= k < |labels| => QuotedValue(labels[k]))
  }

  /**
   * The condition for a list of labels: membership for several labels, a
   * field equality with the first (or null) for one or none.
   */
  function LabelsCondition(attribute: string, labels: seq<Json>): string
  {
    if |labels| > 1 then QuotedColumnRef(attribute) + " IN (" + Join(QuotedValues(labels), ", ") + ")"
    else FieldEquality(attribute, At(labels, 0))
  }

  /** A label the converter can compare against: a string or a number. */
  predicate IsScalarLabel(v: Json)
  {
    v.Str? || v.Int? || v.Num?
  }

  /**
   * One arm of a general `match`: a list of labels gives `WHEN cond `, a
   * scalar label `WHEN (cond) `, anything else no condition at all; then
   * `THEN output `.
   */
  function MatchArm(expr: seq<Json>, attribute: string, i: int): string
  {
    var entry := At(expr, i);
    var condition :=
      if entry.List? then "WHEN " + LabelsCondition(attribute, entry.items) + " "
      else if IsScalarLabel(entry) then "WHEN (" + FieldEquality(attribute, entry) + ") "
      else "";
    condition + "THEN " + QuotedValue(At(expr, i + 1)) + " "
  }

  /** Number of (label, output) arms of a general `match` of `n` elements. */
  function ArmCount(n: int): nat
  {
    if n < 4 then 0 else (n - 3) / 2
  }

  /** The arms of a general `match`: the pairs at elements 2 and 3, 4 and 5, ..., leaving out the last two elements. */
  function MatchArms(expr: seq<Json>, attribute: string): (arms: seq<string>)
    ensures |arms| == ArmCount(|expr|)
  {
    seq(ArmCount(|expr|), k => MatchArm(expr, attribute, 2 + 2 * k))
  }

  /** The loop test `i < size - 2` at element `i = 2 + 2 * j` fails exactly after the last arm. */
  lemma ArmLoopEnds(n: int, j: nat)
    requires j <= ArmCount(n)
    ensures 2 + 2 * j >= n - 2 <==> j == ArmCount(n)
  {
  }

  /** The loop over the arms, from arm `j` (element `2 + 2 * j`) on. */
  function MatchArmsFrom(expr: seq<Json>, attribute: string, j: nat): (r: string)
    requires j <= ArmCount(|expr|)
    ensures r == Concat(MatchArms(expr, attribute)[j..])
    decreases |expr| - j
  {
    ArmLoopEnds(|expr|, j);
    if 2 + 2 * j >= |expr| - 2 then
      assert MatchArms(expr, attribute)[j..] == [];
      ""
    else
      var arms := MatchArms(expr, attribute);
      ConcatFrom(arms, j);
      var rest := MatchArmsFrom(expr, attribute, j + 1);
      assert rest == Concat(arms[j + 1..]);
      arms[j] + rest
  }

  /** The condition of a `[match, get, labels, true, false]` filter, if the labels can be compared. */
  function SimpleMatch(attribute: string, labels: Json): Warned<string>
  {
    if labels.List? then Warned(LabelsCondition(attribute, labels.items), [])
    else if IsScalarLabel(labels) then Warned(FieldEquality(attribute, labels), [])
    else Warned("", [NonSupportedExpressionWarning])
  }

  /** The form `[match, input, labels, true, false]`: a plain condition on the labels. */
  predicate IsSimpleMatch(expr: seq<Json>)
  {
    |expr| == 5 && expr[3] == Bool(true) && expr[4] == Bool(false)
  }

  /**
   * `match`: the simple form becomes a single condition; any other form a
   * CASE with one arm per (label, output) pair and the last element as ELSE.
   */
  function ParseMatch(expr: seq<Json>): (r: Warned<string>)
    requires |expr| > 0
    ensures !IsSimpleMatch(expr) ==>
      r == Warned("CASE " + Concat(MatchArms(expr, ToText(At(ToList(At(expr, 1)), 1))))
                  + "ELSE " + QuotedValue(expr[|expr| - 1]) + " END", [])
    ensures IsSimpleMatch(expr) ==> r == SimpleMatch(ToText(At(ToList(expr[1]), 1)), expr[2])
  {
    var attribute := ToText(At(ToList(At(expr, 1)), 1));
    if IsSimpleMatch(expr) then SimpleMatch(attribute, expr[2])
    else
      assert MatchArms(expr, attribute)[0..] == MatchArms(expr, attribute);
      Warned("CASE " + MatchArmsFrom(expr, attribute, 0) + "ELSE " + QuotedValue(expr[|expr| - 1]) + " END", [])
  }

  // ---------------------------------------------------------------------
  // parseExpression / parseValue

  /**
   * The translated operands from element `i` on, all of them non-empty; or
   * None as soon as one translates to nothing, after one more warning.
   */
  function ParseParts(expr: seq<Json>, i: nat): (r: Warned<Option<seq<string>>>)
    ensures r.value.Some? ==> |r.value.value| == if i <= |expr| then |expr| - i else 0
    ensures r.value.None? ==> |r.warnings| > 0 && r.warnings[|r.warnings| - 1] == UnsupportedExpressionWarning
    decreases List(expr), 0, |expr| - i
  {
    if i >= |expr| then Warned(Some([]), [])
    else
      var p := ParseValue(expr[i]);
      if p.value == "" then Warned(None, p.warnings + [UnsupportedExpressionWarning])
      else
        var rest := ParseParts(expr, i + 1);
        var parts := if rest.value.Some? then Some([p.value] + rest.value.value) else None;
        Warned(parts, p.warnings + rest.warnings)
  }

  /**
   * parseValue: a list is a nested expression, a string a quoted literal, a
   * number its text; anything else translates to nothing with a warning.
   */
  function ParseValue(v: Json): (r: Warned<string>)
    ensures v.Str? ==> r == Warned(QuotedString(v.s), [])
    ensures IsNumber(v) ==> r == Warned(ToText(v), [])
    ensures (v.Null? || v.Bool? || v.Object?) ==> r == Warned("", [UnsupportedPartWarning])
    decreases v, 2
  {
    match v
    case List(items) => ParseExpression(items)
    case Str(s) => Warned(QuotedValue(v), [])
    case Int(_) => Warned(ToText(v), [])
    case Num(_) => Warned(ToText(v), [])
    case _ => Warned("", [UnsupportedPartWarning])
  }

  /** The branches of parseExpression, in the order the operator is tested. */
  datatype Operator = Combinator | Not | Comparison | Has | NotHas | Membership | GetKey | MatchOp | ToStringOp | Unknown

  /** The branch parseExpression takes for an operator text. */
  function Classify(op: string): (r: Operator)
    ensures r == Combinator <==> IsCombinator(op)
    ensures r == Not <==> op == "!"
    ensures r == Comparison <==> IsComparison(op)
    ensures r == Has <==> op == "has"
    ensures r == NotHas <==> op == "!has"
    ensures r == Membership <==> op == "in" || op == "!in"
    ensures r == GetKey <==> op == "get"
    ensures r == MatchOp <==> op == "match"
    ensures r == ToStringOp <==> op == "to-string"
  {
    if IsCombinator(op) then Combinator
    else if op == "!" then Not
    else if IsComparison(op) then Comparison
    else if op == "has" then Has
    else if op == "!has" then NotHas
    else if op == "in" || op == "!in" then Membership
    else if op == "get" then GetKey
    else if op == "match" then MatchOp
    else if op == "to-string" then ToStringOp
    else Unknown
  }

  /** parseExpression: dispatch on the operator at the head of the list. */
  function ParseExpression(expr: seq<Json>): (r: Warned<string>)
    decreases List(expr), 1
  {
    var op := ToText(At(expr, 0));
    match Classify(op)
    case Combinator =>
      var parts := ParseParts(expr, 1);
      if parts.value.None? then Warned("", parts.warnings)
      else Warned(Combine(op, parts.value.value), parts.warnings)
    case Not =>
      Warned(ParseKey(List(Negated(ToList(At(expr, 1))))), [])
    case Comparison =>
      var value := ValueAt(expr, 2);
      Warned(ParseKey(At(expr, 1)) + " " + ComparisonOperator(op) + " " + value.value, value.warnings)
    case Has =>
      Warned(ParseKey(At(expr, 1)) + " IS NOT NULL", [])
    case NotHas =>
      Warned(ParseKey(At(expr, 1)) + " IS NULL", [])
    case Membership =>
      var parts := ParseParts(expr, 2);
      if parts.value.None? then Warned("", parts.warnings)
      else Warned(MembershipText(op, ParseKey(At(expr, 1)), parts.value.value), parts.warnings)
    case GetKey =>
      Warned(ParseKey(At(expr, 1)), [])
    case MatchOp =>
      ParseMatch(expr)
    case ToStringOp =>
      var inner := At(expr, 1);
      var translated := if inner.List? then ParseExpression(inner.items) else Unsupported();
      Warned("to_string(" + translated.value + ")", translated.warnings)
    case Unknown =>
      Unsupported()
  }

  /** parseValue of element `i`, null past the end. */
  function ValueAt(expr: seq<Json>, i: int): (r: Warned<string>)
    ensures 0 <= i < |expr| ==> r == ParseValue(expr[i])
    ensures !(0 <= i < |expr|) ==> r == Warned("", [UnsupportedPartWarning])
    decreases List(expr), 0, 0
  {
    if 0 <= i < |expr| then ParseValue(expr[i]) else Warned("", [UnsupportedPartWarning])
  }

  /** What an expression with an unknown operator translates to. */
  function Unsupported(): Warned<string>
  {
    Warned("", [NonSupportedExpressionWarning])
  }

  /**
   * `["!", [op, args...]]` is read as `["!op", args...]`: the operator text
   * gets a `!` prefix. An empty operand is read as `["!"]`.
   */
  function Negated(operand: seq<Json>): (r: seq<Json>)
    ensures |r| == if |operand| == 0 then 1 else |operand|
    ensures r[0] == Str("!" + ToText(At(operand, 0)))
    ensures forall k :: 1 <= k < |r| ==> r[k] == operand[k]
  {
    var head := Str("!" + ToText(At(operand, 0)));
    if |operand| == 0 then [head] else [head] + operand[1..]
  }

  // ---------------------------------------------------------------------
  // Properties

  /** A value translates to a non-empty text. */
  predicate Translates(v: Json)
  {
    ParseValue(v).value != ""
  }

  lemma PartsStep(expr: seq<Json>, i: nat)
    requires i < |expr|
    ensures ParseParts(expr, i).value.Some? <==> Translates(expr[i]) && ParseParts(expr, i + 1).value.Some?
  {
  }

  /**
   * The operand loop succeeds exactly when every operand translates to a
   * non-empty text; when it gives up, its last warning says so.
   */
  lemma {:induction false} PartsSucceedIff(expr: seq<Json>, i: nat)
    ensures ParseParts(expr, i).value.Some? <==> forall k :: i <= k < |expr| ==> Translates(expr[k])
    decreases |expr| - i
  {
    if i < |expr| {
      PartsStep(expr, i);
      PartsSucceedIff(expr, i + 1);
      if Translates(expr[i]) {
        assert (forall k :: i + 1 <= k < |expr| ==> Translates(expr[k])) ==>
               (forall k :: i <= k < |expr| ==> Translates(expr[k]));
      }
    }
  }

  /** The operand loop reads nothing before element `i`. */
  lemma {:induction false} PartsIgnorePrefix(a: seq<Json>, b: seq<Json>, i: nat)
    requires |a| == |b| && i >= 1
    requires forall k :: 1 <= k < |a| ==> a[k] == b[k]
    ensures ParseParts(a, i) == ParseParts(b, i)
    decreases |a| - i
  {
    if i < |a| {
      PartsIgnorePrefix(a, b, i + 1);
    }
  }

  /** What a combinator expression translates to, in terms of its operand loop. */
  lemma CombinatorUnfold(expr: seq<Json>)
    requires |expr| > 0 && Classify(ToText(expr[0])) == Combinator
    ensures var parts := ParseParts(expr, 1);
            ParseExpression(expr) ==
              if parts.value.None? then Warned("", parts.warnings)
              else Warned(Combine(ToText(expr[0]), parts.value.value), parts.warnings)
  {
  }

  /** A comparison compares the key with the translated third element. */
  lemma ComparisonUnfold(expr: seq<Json>)
    requires |expr| > 0 && Classify(ToText(expr[0])) == Comparison
    ensures ParseExpression(expr) ==
      Warned(ParseKey(At(expr, 1)) + " " + ComparisonOperator(ToText(expr[0])) + " " + ValueAt(expr, 2).value,
             ValueAt(expr, 2).warnings)
  {
  }

  /** `get` reads the key. */
  lemma GetUnfold(expr: seq<Json>)
    requires |expr| > 0 && Classify(ToText(expr[0])) == GetKey
    ensures ParseExpression(expr) == Warned(ParseKey(At(expr, 1)), [])
  {
  }

  /** `to-string` wraps the translation of a nested expression. */
  lemma ToStringUnfold(expr: seq<Json>)
    requires |expr| > 1 && Classify(ToText(expr[0])) == ToStringOp && expr[1].List?
    ensures ParseExpression(expr) ==
      Warned("to_string(" + ParseExpression(expr[1].items).value + ")", ParseExpression(expr[1].items).warnings)
  {
  }

  /** `match` is translated by the match rules. */
  lemma MatchUnfold(expr: seq<Json>)
    requires |expr| > 0 && Classify(ToText(expr[0])) == MatchOp
    ensures ParseExpression(expr) == ParseMatch(expr)
  {
  }

  /** What a membership expression translates to, in terms of its operand loop. */
  lemma MembershipUnfold(expr: seq<Json>)
    requires |expr| > 0 && Classify(ToText(expr[0])) == Membership
    ensures var parts := ParseParts(expr, 2);
            ParseExpression(expr) ==
              if parts.value.None? then Warned("", parts.warnings)
              else Warned(MembershipText(ToText(expr[0]), ParseKey(At(expr, 1)), parts.value.value), parts.warnings)
  {
  }

  /** The text of a comparison: key, operator and value separated by single spaces. */
  lemma SpacedOperator(key: string, op: string, value: string)
    ensures key + " " + op + " " + value == key + (" " + op + " ") + value
  {
  }

  /**
   * Equality tests: `==` and `!=` become the NULL-aware IS and IS NOT, with
   * the key first and the translated third element last; only that
   * element's warnings are pushed.
   */
  lemma EqualityTranslation(expr: seq<Json>)
    requires ToText(At(expr, 0)) == "==" || ToText(At(expr, 0)) == "!="
    ensures var word := if ToText(At(expr, 0)) == "==" then " IS " else " IS NOT ";
      ParseExpression(expr) == Warned(ParseKey(At(expr, 1)) + word + ValueAt(expr, 2).value, ValueAt(expr, 2).warnings)
  {
    ComparisonUnfold(expr);
    NullAwareWords(ParseKey(At(expr, 1)), ValueAt(expr, 2).value);
  }

  /** The comparison text around IS and IS NOT, with the spaces folded into the word. */
  lemma NullAwareWords(key: string, value: string)
    ensures key + " " + "IS" + " " + value == key + " IS " + value
    ensures key + " " + "IS NOT" + " " + value == key + " IS NOT " + value
  {
    SpacedOperator(key, "IS", value);
    SpacedOperator(key, "IS NOT", value);
    assert " " + "IS" + " " == " IS ";
    assert " " + "IS NOT" + " " == " IS NOT ";
  }

  /** Order comparisons keep their symbol between the key and the translated third element. */
  lemma OrderTranslation(expr: seq<Json>)
    requires ToText(At(expr, 0)) in [">=", ">", "<=", "<"]
    ensures var op := ToText(At(expr, 0));
      ParseExpression(expr) == Warned(ParseKey(At(expr, 1)) + " " + op + " " + ValueAt(expr, 2).value, ValueAt(expr, 2).warnings)
  {
    ComparisonUnfold(expr);
  }

  /**
   * Key tests: `has` and `!has` compare the key with NULL, `get` names the
   * key, and `!` reads its operand with a `!`-prefixed operator as a key;
   * none of them warns.
   */
  lemma KeyTranslations(expr: seq<Json>)
    ensures var op := ToText(At(expr, 0));
      var r := ParseExpression(expr);
      && (op == "!" ==> r == Warned(ParseKey(List(Negated(ToList(At(expr, 1))))), []))
      && (op == "has" ==> r == Warned(ParseKey(At(expr, 1)) + " IS NOT NULL", []))
      && (op == "!has" ==> r == Warned(ParseKey(At(expr, 1)) + " IS NULL", []))
      && (op == "get" ==> r == Warned(ParseKey(At(expr, 1)), []))
  {
  }

  /**
   * Operand lists: a combinator from element 1 and a membership test from
   * element 2 give nothing when an operand does, and otherwise join the
   * operands; either way they push the operand loop's warnings.
   */
  lemma OperandTranslations(expr: seq<Json>)
    ensures var op := ToText(At(expr, 0));
      var r := ParseExpression(expr);
      && (IsCombinator(op) ==>
            var parts := ParseParts(expr, 1);
            && r.warnings == parts.warnings
            && (parts.value.None? ==> r.value == "")
            && (parts.value.Some? ==> r.value == Combine(op, parts.value.value)))
      && (op == "in" || op == "!in" ==>
            var parts := ParseParts(expr, 2);
            && r.warnings == parts.warnings
            && (parts.value.None? ==> r.value == "")
            && (parts.value.Some? ==> r.value == MembershipText(op, ParseKey(At(expr, 1)), parts.value.value)))
  {
    var op := ToText(At(expr, 0));
    if IsCombinator(op) {
      CombinatorUnfold(expr);
    } else if op == "in" || op == "!in" {
      MembershipUnfold(expr);
    }
  }

  /**
   * `to-string` wraps the translation of a nested expression and keeps its
   * warnings; of anything else it translates an empty expression, which
   * warns.
   */
  lemma ToStringTranslation(expr: seq<Json>)
    requires ToText(At(expr, 0)) == "to-string"
    ensures At(expr, 1).List? ==>
      var inner := ParseExpression(At(expr, 1).items);
      ParseExpression(expr) == Warned("to_string(" + inner.value + ")", inner.warnings)
    ensures !At(expr, 1).List? ==> ParseExpression(expr) == Warned("to_string()", [NonSupportedExpressionWarning])
  {
    if At(expr, 1).List? {
      ToStringUnfold(expr);
    } else {
      assert "to_string(" + "" + ")" == "to_string()";
    }
  }

  /** `match` follows the match rules; an unknown operator gives nothing and a warning. */
  lemma MatchAndUnknownTranslation(expr: seq<Json>)
    ensures ToText(At(expr, 0)) == "match" ==> |expr| > 0 && ParseExpression(expr) == ParseMatch(expr)
    ensures Classify(ToText(At(expr, 0))) == Unknown ==> ParseExpression(expr) == Warned("", [NonSupportedExpressionWarning])
  {
    if ToText(At(expr, 0)) == "match" {
      MatchUnfold(expr);
    }
  }

  /** A combinator's text is never empty once its operands translate. */
  lemma CombineNonEmpty(op: string, parts: seq<string>)
    ensures Combine(op, parts) != ""
  {
  }

  /**
   * A combinator translates to nothing exactly when one of its operands
   * does, and pushes the warnings of its operand loop.
   */
  lemma CombinatorFails(expr: seq<Json>)
    requires |expr| > 0 && Classify(ToText(expr[0])) == Combinator
    ensures ParseExpression(expr).value == "" <==> exists k :: 1 <= k < |expr| && !Translates(expr[k])
    ensures ParseExpression(expr).warnings == ParseParts(expr, 1).warnings
  {
    CombinatorUnfold(expr);
    PartsSucceedIff(expr, 1);
    var parts := ParseParts(expr, 1);
    if parts.value.Some? {
      CombineNonEmpty(ToText(expr[0]), parts.value.value);
    }
  }

  /**
   * `all`, `any` and `none` over the same operands fail together and push
   * the same warnings.
   */
  lemma CombinatorsAgree(a: seq<Json>, b: seq<Json>)
    requires |a| == |b| > 0
    requires Classify(ToText(a[0])) == Combinator && Classify(ToText(b[0])) == Combinator
    requires a[1..] == b[1..]
    ensures ParseExpression(a).warnings == ParseExpression(b).warnings
    ensures ParseExpression(a).value == "" <==> ParseExpression(b).value == ""
  {
    assert forall k :: 1 <= k < |a| ==> a[k] == a[1..][k - 1] == b[k];
    PartsIgnorePrefix(a, b, 1);
    CombinatorFails(a);
    CombinatorFails(b);
  }

  /**
   * `!` applied to an expression keeps the expression's second element as
   * a bare key: `["!", ["has", "level"]]` gives `level`, not a null test.
   */
  lemma NegationReadsKey(operand: seq<Json>)
    requires |operand| > 1
    ensures ParseExpression([Str("!"), List(operand)]) == Warned(ToText(operand[1]), [])
  {
    var n := Negated(operand);
    assert n[1] == operand[1];
  }

  /** `has` and `!has` test the same key, for presence and for absence. */
  lemma HasAndNotHas(has: seq<Json>, hasNot: seq<Json>)
    requires |has| > 1 && ToText(has[0]) == "has"
    requires |hasNot| > 1 && ToText(hasNot[0]) == "!has" && hasNot[1] == has[1]
    ensures ParseExpression(has) == Warned(ParseKey(has[1]) + " IS NOT NULL", [])
    ensures ParseExpression(hasNot) == Warned(ParseKey(has[1]) + " IS NULL", [])
  {
    assert Classify(ToText(At(has, 0))) == Has;
    assert Classify(ToText(At(hasNot, 0))) == NotHas;
  }

  /**
   * `in` and `!in` over the same values fail together; when they succeed
   * the second is the null-aware complement of the first.
   */
  lemma MembershipComplement(key: Json, values: seq<Json>)
    ensures var pos := ParseExpression([Str("in"), key] + values);
            var neg := ParseExpression([Str("!in"), key] + values);
            pos.warnings == neg.warnings &&
            (pos.value == "" <==> neg.value == "") &&
            (pos.value != "" ==> exists list ::
               pos.value == ParseKey(key) + " IN (" + list + ")" &&
               neg.value == "(" + ParseKey(key) + " IS NULL OR " + ParseKey(key) + " NOT IN (" + list + "))")
  {
    var a := [Str("in"), key] + values;
    var b := [Str("!in"), key] + values;
    PartsIgnorePrefix(a, b, 2);
    MembershipUnfold(a);
    MembershipUnfold(b);
    var parts := ParseParts(a, 2);
    if parts.value.Some? {
      var list := Join(parts.value.value, ", ");
      assert ParseExpression(a).value == ParseKey(key) + " IN (" + list + ")";
    }
  }
}

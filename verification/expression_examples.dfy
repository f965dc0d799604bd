/**
 * Translations of the filter shapes the converter's unit tests exercise,
 * stated for any column name and value.
 */
module ExpressionExamples {
  import opened Text
  import opened Json
  import opened Context
  import opened Quoting
  import opened Expressions

  /** `["get", name]` names the quoted column. */
  lemma GetName(name: string)
    requires name != "$type"
    ensures ParseExpression([Str("get"), Str(name)]) == Warned(QuotedColumnRef(name), [])
  {
    KeyOfName(name);
    GetUnfold([Str("get"), Str(name)]);
  }

  /** `["to-string", ["get", name]]` wraps the quoted column in to_string. */
  lemma ToStringOfName(name: string)
    requires name != "$type"
    ensures ParseExpression([Str("to-string"), List([Str("get"), Str(name)])])
         == Warned("to_string(" + QuotedColumnRef(name) + ")", [])
  {
    GetName(name);
    ToStringUnfold([Str("to-string"), List([Str("get"), Str(name)])]);
  }

  /** `["==", name, n]` compares the column with the NULL-aware IS. */
  lemma EqualsInteger(name: string, n: int)
    requires name != "$type"
    ensures ParseExpression([Str("=="), Str(name), Int(n)]) == Warned(QuotedColumnRef(name) + (" " + "IS" + " ") + IntToString(n), [])
  {
    var e := [Str("=="), Str(name), Int(n)];
    ComparisonUnfold(e);
    assert At(e, 1) == Str(name);
    var key := ParseKey(Str(name));
    assert ValueAt(e, 2) == Warned(IntToString(n), []);
    assert ComparisonOperator("==") == "IS";
    assert ParseExpression(e) == Warned(key + " " + "IS" + " " + IntToString(n), []);
    SpacedOperator(key, "IS", IntToString(n));
    KeyOfName(name);
  }

  /** `["!", ["has", key]]` keeps only the key. */
  lemma NegatedHas(key: string)
    ensures ParseExpression([Str("!"), List([Str("has"), Str(key)])]) == Warned(key, [])
  {
    NegationReadsKey([Str("has"), Str(key)]);
  }

  /** `["match", ["get", attribute], [value], true, false]` is a plain equality test. */
  lemma MatchOneLabel(attribute: string, value: string)
    ensures ParseExpression([Str("match"), List([Str("get"), Str(attribute)]), List([Str(value)]), Bool(true), Bool(false)])
         == Warned(QuotedColumnRef(attribute) + " = " + QuotedString(value), [])
  {
    var e := [Str("match"), List([Str("get"), Str(attribute)]), List([Str(value)]), Bool(true), Bool(false)];
    MatchUnfold(e);
    assert IsSimpleMatch(e);
    assert ToText(At(ToList(e[1]), 1)) == attribute;
  }

  /** With several labels the simple form becomes an IN test over the quoted labels. */
  lemma MatchSeveralLabels(attribute: string, labels: seq<Json>)
    requires |labels| > 1
    ensures ParseExpression([Str("match"), List([Str("get"), Str(attribute)]), List(labels), Bool(true), Bool(false)])
         == Warned(QuotedColumnRef(attribute) + " IN (" + Join(QuotedValues(labels), ", ") + ")", [])
  {
    var e := [Str("match"), List([Str("get"), Str(attribute)]), List(labels), Bool(true), Bool(false)];
    MatchUnfold(e);
    assert IsSimpleMatch(e);
    assert ToText(At(ToList(e[1]), 1)) == attribute;
  }
}

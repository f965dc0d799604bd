/**
 * The decoded style document: a JSON tree as the converter sees it through
 * QVariant, with the lenient accessors the converter uses everywhere
 * (QVariantList::value, QVariantMap::value, QVariant::toString, toDouble,
 * toInt, toList, toMap). Every accessor is total: a missing element or a value
 * of the wrong shape yields the Qt default (null, "", 0, an empty list or map).
 */
module Json {
  import opened Text

  datatype Option<T> = None | Some(value: T)

  datatype Json =
    | Null
    | Bool(b: bool)
    | Int(i: int)
    | Num(r: real)
    | Str(s: string)
    | List(items: seq<Json>)
    | Object(fields: map<string, Json>)

  /** QVariantList::value(i): the element at `i`, or null past either end. */
  function At(items: seq<Json>, i: int): (v: Json)
    ensures 0 <= i < |items| ==> v == items[i]
    ensures !(0 <= i < |items|) ==> v == Null
  {
    if 0 <= i < |items| then items[i] else Null
  }

  /** QVariantMap::value(key): the value under `key`, or null when absent. */
  function Get(m: map<string, Json>, key: string): (v: Json)
    ensures key in m ==> v == m[key]
    ensures key !in m ==> v == Null
  {
    if key in m then m[key] else Null
  }

  /** QVariantMap::value(key, default). */
  function GetOr(m: map<string, Json>, key: string, default: Json): (v: Json)
    ensures key in m ==> v == m[key]
    ensures key !in m ==> v == default
  {
    if key in m then m[key] else default
  }

  /** QVariant::toString: scalars print, lists, maps and null give "". */
  function ToText(v: Json): string
  {
    match v
    case Null => ""
    case Bool(b) => if b then "true" else "false"
    case Int(i) => IntToString(i)
    case Num(r) => Fmt(r)
    case Str(s) => s
    case List(_) => ""
    case Object(_) => ""
  }

  /** QVariant::toDouble: numbers, numeric text and booleans convert; the rest gives 0. */
  function ToNumber(v: Json): real
  {
    match v
    case Null => 0.0
    case Bool(b) => if b then 1.0 else 0.0
    case Int(i) => i as real
    case Num(r) => r
    case Str(s) => ParseNumber(s)
    case List(_) => 0.0
    case Object(_) => 0.0
  }

  /**
   * QVariant::toInt: integers, integer text and booleans convert; a double is
   * rounded half up; the rest gives 0.
   */
  function ToInt(v: Json): int
  {
    match v
    case Null => 0
    case Bool(b) => if b then 1 else 0
    case Int(i) => i
    case Num(r) => (r + 0.5).Floor
    case Str(s) => ParseInt(s)
    case List(_) => 0
    case Object(_) => 0
  }

  /** QVariant::toList: the elements of a list, empty for anything else. */
  function ToList(v: Json): (items: seq<Json>)
    ensures v.List? ==> items == v.items
    ensures !v.List? ==> items == []
  {
    if v.List? then v.items else []
  }

  /** QVariant::toMap: the members of an object, empty for anything else. */
  function ToObject(v: Json): (m: map<string, Json>)
    ensures v.Object? ==> m == v.fields
    ensures !v.Object? ==> m == map[]
  {
    if v.Object? then v.fields else map[]
  }

  /** A value the converter treats as a number (QVariant::Int or QVariant::Double). */
  predicate IsNumber(v: Json) { v.Int? || v.Num? }

  /**
   * The text of an integer reads back as the same number: converting a stop
   * to text and parsing it again loses nothing.
   */
  lemma IntegerTextRoundTrip(i: int)
    ensures ToNumber(Str(ToText(Int(i)))) == ToNumber(Int(i))
    ensures ToText(Str(ToText(Int(i)))) == ToText(Int(i))
  {
    ParseIntToString(i);
  }
}

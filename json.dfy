/** JSON values as the gateway sees them after body parsing, and the two
    JavaScript operations it applies to them: property access and string
    conversion inside a template literal. */
module Json {
  import opened Wrappers
  import Text

  /** A parsed JSON value. Numbers are integers; object fields are unordered. */
  datatype Json =
    | JNull
    | JBool(b: bool)
    | JNum(n: int)
    | JStr(s: string)
    | JArr(items: seq<Json>)
    | JObj(fields: map<string, Json>)

  /** Where reading a property throws a `TypeError`: on `null` (and on
      `undefined`, which is not a JSON value and is modelled by `None`). */
  predicate Nullish(v: Option<Json>)
  {
    v.None? || v.value.JNull?
  }

  /** `v[key]` on a value that is not nullish: an object's own field, or
      `undefined` (`None`) when the object lacks it or `v` is a primitive or an
      array (none of the keys the gateway reads is an array or string property). */
  function Get(v: Json, key: string): (r: Option<Json>)
    requires !v.JNull?
    ensures r.Some? <==> v.JObj? && key in v.fields
    ensures r.Some? ==> r.value == v.fields[key]
  {
    match v
    case JObj(fields) => if key in fields then Some(fields[key]) else None
    case _ => None
  }

  /** Whether `String(v)` returns rather than throwing "Cannot convert object to
      primitive value". A parsed object with its own `toString` field hides
      `Object.prototype.toString` behind a value that is not a function, and its
      `valueOf` gives back the object itself, so converting it throws; any other
      object converts. An array converts when each of its elements does. */
  predicate Convertible(v: Json)
  {
    match v
    case JObj(fields) => "toString" !in fields
    case JArr(items) => forall i :: 0 <= i < |items| ==> Convertible(items[i])
    case _ => true
  }

  /** `String(v)`, as a template literal `${v}` converts a value, or `None`
      where the conversion throws: arrays are joined with "," (see `ElementText`),
      other objects become "[object Object]". */
  function ToText(v: Json): (r: Option<string>)
    decreases v, 0
    ensures r.Some? <==> Convertible(v)
  {
    match v
    case JNull => Some("null")
    case JBool(b) => Some(if b then "true" else "false")
    case JNum(n) => Some(Text.IntText(n))
    case JStr(s) => Some(s)
    case JArr(items) =>
      var texts := seq(|items|, i requires 0 <= i < |items| => ElementText(items[i]));
      assert forall i :: 0 <= i < |items| ==> (texts[i].Some? <==> Convertible(items[i]));
      if forall i :: 0 <= i < |texts| ==> texts[i].Some? then
        Some(JoinTexts(seq(|texts|, i requires 0 <= i < |texts| => texts[i].value)))
      else None
    case JObj(fields) => if "toString" in fields then None else Some("[object Object]")
  }

  /** An array element as `Array.prototype.join` writes it: `null` becomes "",
      anything else is converted with `ToText`. */
  function ElementText(v: Json): (r: Option<string>)
    decreases v, 1
    ensures r.Some? <==> Convertible(v)
    ensures v.JNull? ==> r == Some("")
  {
    if v.JNull? then Some("") else ToText(v)
  }

  /** `String(v)` where `v` may be `undefined`. */
  function OptionText(v: Option<Json>): (r: Option<string>)
    ensures r.Some? <==> v.None? || Convertible(v.value)
    ensures v.None? ==> r == Some("undefined")
  {
    match v
    case None => Some("undefined")
    case Some(x) => ToText(x)
  }

  /** Splitting the text of a non-empty array at "," gives back the texts of its
      elements, as long as none of those contains a comma. */
  lemma ArrayTextSplits(items: seq<Json>)
    requires |items| >= 1
    requires forall i :: 0 <= i < |items| ==> Convertible(items[i])
    requires forall i :: 0 <= i < |items| ==> ',' !in ElementText(items[i]).value
    ensures ToText(JArr(items)).Some?
    ensures Text.Split(ToText(JArr(items)).value, ',') ==
            seq(|items|, i requires 0 <= i < |items| => ElementText(items[i]).value)
  {
    var texts := seq(|items|, i requires 0 <= i < |items| => ElementText(items[i]));
    var parts := seq(|texts|, i requires 0 <= i < |texts| => texts[i].value);
    assert ToText(JArr(items)) == Some(Text.Join(parts, ','));
    Text.JoinSplit(parts, ',');
  }

  /** `texts.join(",")`; the empty array joins to "". */
  function JoinTexts(texts: seq<string>): string
  {
    if texts == [] then "" else Text.Join(texts, ',')
  }
}

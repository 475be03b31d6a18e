/**
 * The JSON-like values the server passes around as Python dicts and lists: API bodies,
 * request payloads, result dictionaries. Objects keep their keys in insertion order,
 * as Python dicts do.
 */
module Json {
  import opened Common

  /**
   * A number is kept as the text Python prints for it together with its truthiness;
   * nothing in the model does arithmetic on it.
   */
  datatype Json =
    | JNull
    | JBool(b: bool)
    | JNum(text: string, nonzero: bool)
    | JStr(s: string)
    | JArr(items: seq<Json>)
    | JObj(fields: seq<(string, Json)>)

  /** Python truthiness: None, False, zero and empty containers are false. */
  predicate Truthy(j: Json)
  {
    match j
    case JNull => false
    case JBool(b) => b
    case JNum(_, nonzero) => nonzero
    case JStr(s) => s != []
    case JArr(items) => items != []
    case JObj(fields) => fields != []
  }

  /** Python's `a or b`. */
  function Or(a: Json, b: Json): Json
  {
    if Truthy(a) then a else b
  }

  /** Python's `d.get(key, default)`: the default applies only when the key is absent. */
  function GetOr(fields: seq<(string, Json)>, key: string, default: Json): Json
  {
    match Lookup(fields, key)
    case Some(v) => v
    case None => default
  }

  /** Python's `d.get(key)`. */
  function Get(fields: seq<(string, Json)>, key: string): Json
  {
    GetOr(fields, key, JNull)
  }

  /** Python's repr(): strings are quoted, containers list their elements' reprs. */
  function Repr(j: Json): string
    decreases j
  {
    match j
    case JNull => "None"
    case JBool(b) => if b then "True" else "False"
    case JNum(text, _) => text
    case JStr(s) => "'" + s + "'"
    case JArr(items) =>
      "[" + Join(", ", seq(|items|, k requires 0 <= k < |items| => Repr(items[k]))) + "]"
    case JObj(fields) =>
      "{" + Join(", ", seq(|fields|, k requires 0 <= k < |fields| =>
        "'" + fields[k].0 + "': " + Repr(fields[k].1))) + "}"
  }

  /** Python's str(), what an f-string prints: a string is printed as itself, the rest by repr(). */
  function Str(j: Json): string
  {
    if j.JStr? then j.s else Repr(j)
  }

  /**
   * What `for x in j` visits: a list's items, a string's characters, a dict's keys.
   * None for the values Python refuses to iterate (a TypeError).
   */
  function Iter(j: Json): (r: Option<seq<Json>>)
    ensures r.None? <==> (j.JNull? || j.JBool? || j.JNum?)
    ensures j.JArr? ==> r == Some(j.items)
    ensures j.JStr? ==> r.Some? && |r.value| == |j.s| && forall k :: 0 <= k < |j.s| ==> r.value[k] == JStr([j.s[k]])
    ensures j.JObj? ==> r.Some? && |r.value| == |j.fields| && forall k :: 0 <= k < |j.fields| ==> r.value[k] == JStr(j.fields[k].0)
  {
    match j
    case JArr(items) => Some(items)
    case JStr(s) => Some(seq(|s|, k requires 0 <= k < |s| => JStr([s[k]])))
    case JObj(fields) => Some(seq(|fields|, k requires 0 <= k < |fields| => JStr(fields[k].0)))
    case _ => None
  }

  /** The strings of a list whose items are all strings. */
  function Strings(items: seq<Json>): (r: Option<seq<string>>)
    ensures r.Some? <==> forall k :: 0 <= k < |items| ==> items[k].JStr?
    ensures r.Some? ==> |r.value| == |items| && forall k :: 0 <= k < |items| ==> r.value[k] == items[k].s
  {
    if items == [] then Some([])
    else if !items[0].JStr? then None
    else
      match Strings(items[1..])
      case None => None
      case Some(rest) => Some([items[0].s] + rest)
  }

  /** Python's `sep.join(items)`, which raises a TypeError (None here) unless every item is a string. */
  function JoinItems(sep: string, items: seq<Json>): (r: Option<string>)
    ensures r.Some? <==> forall k :: 0 <= k < |items| ==> items[k].JStr?
    ensures r.Some? ==> r.value == Join(sep, Strings(items).value)
  {
    match Strings(items)
    case None => None
    case Some(strs) => Some(Join(sep, strs))
  }
}

/**
 * The JSON values the upstream response is made of, with the two Python operations the extractor
 * applies to them: `d.get(key, default)` on an object and `for x in v` on a value.
 */
module Json {
  import opened Wrappers

  /** A decoded JSON value. An object keeps its members in order, as a Python dict does. */
  datatype Json =
    | JNull
    | JBool(b: bool)
    | JNumber(n: real)
    | JString(s: string)
    | JArray(items: seq<Json>)
    | JObject(members: seq<(string, Json)>)

  /** The value bound to `key`; with a repeated key the last binding wins, as in Python's json.loads. */
  function Lookup(members: seq<(string, Json)>, key: string): Option<Json>
  {
    if members == [] then None
    else if members[|members| - 1].0 == key then Some(members[|members| - 1].1)
    else Lookup(members[..|members| - 1], key)
  }

  /** `obj.get(key, default)` */
  function Get(obj: Json, key: string, default: Json): Json
    requires obj.JObject?
  {
    Lookup(obj.members, key).GetOr(default)
  }

  /**
   * The elements `for x in v` visits: a list's items, a string's one-character strings, a dict's keys;
   * None for null, booleans and numbers, on which Python raises TypeError.
   */
  function Iterate(v: Json): Option<seq<Json>> {
    match v
    case JArray(items) => Some(items)
    case JString(s) => Some(seq(|s|, i requires 0 <= i < |s| => JString([s[i]])))
    case JObject(members) => Some(seq(|members|, i requires 0 <= i < |members| => JString(members[i].0)))
    case _ => None
  }
}

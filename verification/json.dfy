/** Decoded JSON data, the shape of tool-call dicts, schemas and tool arguments. */
module JsonData {
  import opened Wrappers

  /** A Python value as produced by `json.loads`: numbers are kept as reals. */
  datatype Json =
    | JNull
    | JBool(b: bool)
    | JNum(n: real)
    | JStr(s: string)
    | JArr(items: seq<Json>)
    | JObj(fields: map<string, Json>)

  /** Python truthiness of a decoded value, as consulted by `x or default`. */
  predicate Truthy(v: Json): (r: bool)
    ensures r ==> v != JNull && v != JBool(false) && v != JNum(0.0)
    ensures r ==> v != JStr("") && v != JArr([]) && v != JObj(map[])
    ensures v.JObj? && v.fields != map[] ==> r
  {
    match v
    case JNull => false
    case JBool(b) => b
    case JNum(n) => n != 0.0
    case JStr(s) => |s| > 0
    case JArr(items) => |items| > 0
    case JObj(fields) => |fields| > 0
  }

  /** Python's `v[key]`: succeeds only on a dict that holds `key`, and raises otherwise. */
  function Get(v: Json, key: string): (r: Option<Json>)
    ensures r.Some? <==> v.JObj? && key in v.fields
    ensures r.Some? ==> r.value == v.fields[key]
  {
    if v.JObj? && key in v.fields then Some(v.fields[key]) else None
  }
}

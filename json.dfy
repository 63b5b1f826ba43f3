/**
 * Decoded JSON values as the Python code sees them after `json.loads`:
 * objects are dictionaries, `null` is `None`. Floating-point numbers are
 * not modelled; numbers are integers.
 */
module JsonValue {

  datatype Json =
    | JNull
    | JBool(b: bool)
    | JInt(n: int)
    | JStr(s: string)
    | JArr(items: seq<Json>)
    | JObj(fields: map<string, Json>)

  /** Python truthiness: `None`, `False`, `0`, `""`, `[]` and `{}` are falsy. */
  predicate Truthy(j: Json) {
    match j
    case JNull => false
    case JBool(b) => b
    case JInt(n) => n != 0
    case JStr(s) => s != ""
    case JArr(items) => items != []
    case JObj(fields) => fields != map[]
  }

  /** Python's `x or default`. */
  function Or(x: Json, default: Json): Json {
    if Truthy(x) then x else default
  }

  /** `d.get(key, default)` on a dictionary. */
  function GetOr(d: map<string, Json>, key: string, default: Json): Json {
    if key in d then d[key] else default
  }

  /** `d.get(key)`: a missing key and an explicit `null` both read as `None`. */
  function Get(d: map<string, Json>, key: string): Json {
    GetOr(d, key, JNull)
  }
}

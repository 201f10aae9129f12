/** A decoded JSON document, as Python's json module hands it to the weather
    code, together with the few dict and truthiness operations that code uses. */
module Json {
  import opened Wrappers

  /** JSON numbers are kept as exact reals: Python compares an int and a float
      by value (200 == 200.0), so one numeric constructor is enough. */
  datatype Json =
    | JNull
    | JBool(b: bool)
    | JNum(n: real)
    | JStr(s: string)
    | JArr(items: seq<Json>)
    | JObj(fields: map<string, Json>)

  /** `v[key]` on a decoded value: None where Python raises (the value is not
      a dict, so TypeError, or the key is missing, so KeyError). */
  function Member(v: Json, key: string): Option<Json> {
    if v.JObj? && key in v.fields then Some(v.fields[key]) else None
  }

  /** `d.get(key, default)` on a dict. */
  function GetOr(fields: map<string, Json>, key: string, default: Json): Json {
    if key in fields then fields[key] else default
  }

  /** Python's `not v` for a decoded JSON value. */
  predicate Falsy(v: Json) {
    match v
    case JNull => true
    case JBool(b) => !b
    case JNum(n) => n == 0.0
    case JStr(s) => s == ""
    case JArr(items) => items == []
    case JObj(fields) => fields == map[]
  }

  /** A number with no fractional part. */
  predicate IsIntegral(n: real) {
    n.Floor as real == n
  }
}

/** The values a parsed JSON document (and hence the project charter) can hold. */
module Values {
  import opened Outcomes

  /** A JSON value as `json.loads` returns it; numbers are integers here. */
  datatype Json =
    | JNull
    | JBool(b: bool)
    | JNum(n: int)
    | JStr(s: string)
    | JArr(items: seq<Json>)
    | JObj(fields: map<string, Json>)

  /** Python truthiness of the value `json.loads` produces for `v`. */
  predicate Truthy(v: Json) {
    match v
    case JNull => false
    case JBool(b) => b
    case JNum(n) => n != 0
    case JStr(s) => s != ""
    case JArr(items) => items != []
    case JObj(fields) => fields != map[]
  }

  /** `d.get(key)`: the stored value, or nothing when the key is absent. */
  function Lookup(d: map<string, Json>, key: string): (r: Option<Json>)
    ensures r.Some? <==> key in d
    ensures r.Some? ==> r.value == d[key]
  {
    if key in d then Some(d[key]) else None
  }

  /** `d.get(key, default)`: a stored value wins, even a stored `null`. */
  function GetOr(d: map<string, Json>, key: string, default: Json): (r: Json)
    ensures key in d ==> r == d[key]
    ensures key !in d ==> r == default
  {
    match Lookup(d, key)
    case Some(v) => v
    case None => default
  }
}

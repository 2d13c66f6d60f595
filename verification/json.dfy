/** Parsed JSON values, as `JSON.parse` returns them, with JavaScript truthiness and optional property access. */
module Json {
  import opened Wrappers

  /** A JSON value; numbers are integers in this model. */
  datatype Json =
    | JNull
    | JBool(b: bool)
    | JNum(n: int)
    | JStr(s: string)
    | JArr(items: seq<Json>)
    | JObj(fields: map<string, Json>)

  /** JavaScript truthiness of a possibly-undefined JSON value. */
  predicate TruthyJson(v: Option<Json>) {
    match v
    case None => false
    case Some(JNull) => false
    case Some(JBool(b)) => b
    case Some(JNum(n)) => n != 0
    case Some(JStr(s)) => s != ""
    case Some(_) => true
  }

  /** `v?.key`: the property of an object; `undefined` for anything else or a missing key. */
  function Get(v: Option<Json>, key: string): (r: Option<Json>)
    ensures r.Some? <==> v.Some? && v.value.JObj? && key in v.value.fields
    ensures r.Some? ==> r.value == v.value.fields[key]
  {
    if v.Some? && v.value.JObj? && key in v.value.fields then Some(v.value.fields[key]) else None
  }

  /** `v?.key || fallback`. */
  function GetOr(v: Option<Json>, key: string, fallback: Json): (r: Json)
    ensures TruthyJson(Get(v, key)) ==> Some(r) == Get(v, key)
    ensures !TruthyJson(Get(v, key)) ==> r == fallback
  {
    if TruthyJson(Get(v, key)) then Get(v, key).value else fallback
  }
}

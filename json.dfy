/**
 * Parsed JSON request bodies as JavaScript sees them: the values `express.json()`
 * produces, JavaScript truthiness, and property access (`v.name`, which is
 * `undefined` on anything that is not an object holding that name).
 */
module Json {
  import opened Wrappers

  /** A JSON value. Numbers are integers in this model. */
  datatype Json =
    | JNull
    | JBool(b: bool)
    | JNum(n: int)
    | JStr(s: string)
    | JArr(items: seq<Json>)
    | JObj(fields: map<string, Json>)

  /** JavaScript truthiness of a value; `undefined` (None) is falsy. */
  predicate Truthy(v: Option<Json>) {
    match v
    case None => false
    case Some(JNull) => false
    case Some(JBool(b)) => b
    case Some(JNum(n)) => n != 0
    case Some(JStr(s)) => s != ""
    case Some(_) => true
  }

  /** `v.name` for a value that is neither null nor undefined: only objects hold named members. */
  function Get(v: Json, name: string): (r: Option<Json>)
    ensures r.Some? <==> v.JObj? && name in v.fields
  {
    if v.JObj? && name in v.fields then Some(v.fields[name]) else None
  }

  /** `v?.name`: undefined when `v` is undefined. */
  function GetOpt(v: Option<Json>, name: string): Option<Json> {
    if v.Some? then Get(v.value, name) else None
  }
}

/** A small abstract JSON value, standing for `serde_json::Value`. Numbers are
    integers here: no rule of the model looks inside a number. */
module Json {
  import opened Wrappers

  datatype Json =
    | JNull
    | JBool(b: bool)
    | JNumber(n: int)
    | JString(s: string)
    | JArray(items: seq<Json>)
    | JObject(fields: map<string, Json>)

  /** `Value::get(key)`: the member of an object, and nothing for any other value. */
  function Get(v: Json, key: string): (r: Option<Json>)
    ensures r.Some? <==> v.JObject? && key in v.fields
    ensures r.Some? ==> r.value == v.fields[key]
  {
    match v
    case JObject(fields) => if key in fields then Some(fields[key]) else None
    case _ => None
  }

  /** `Value::as_str()`. */
  function AsStr(v: Json): (r: Option<string>)
    ensures r.Some? <==> v.JString?
  {
    match v
    case JString(s) => Some(s)
    case _ => None
  }
}

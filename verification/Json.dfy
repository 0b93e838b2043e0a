/**
 JSON values as `serde_json::Value` holds them: an object is a map, so its keys are
 distinct, and an integer is never equal to a floating-point number.
 */
module Json {
  import opened Bytes

  datatype Json =
    | Null
    | Bool(b: bool)
    | Integer(n: int)
    | Float(x: real)
    | Str(s: string)
    | Array(items: seq<Json>)
    | Object(fields: map<string, Json>)

  /** `Value::get` with a key. */
  function Get(v: Json, key: string): Option<Json> {
    if v.Object? && key in v.fields then Some(v.fields[key]) else None
  }
}

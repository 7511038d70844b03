/** A parsed JSON document, as `json.loads` returns it and `json.dumps` consumes it. */
module Json {
  import opened Wrappers

  datatype Value =
    | JNull
    | JBool(b: bool)
    | JNumber(n: real)
    | JString(s: string)
    | JArray(items: seq<Value>)
    | JObject(fields: map<string, Value>)

  /** `v[key]` in Python: defined on an object that holds `key`; a KeyError or TypeError otherwise. */
  function Get(v: Value, key: string): (r: Option<Value>)
    ensures r.Some? <==> v.JObject? && key in v.fields
    ensures r.Some? ==> r.value == v.fields[key]
  {
    if v.JObject? && key in v.fields then Some(v.fields[key]) else None
  }
}

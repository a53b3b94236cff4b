/** Parsed JSON values as Python's `json.loads` returns them, and Python truthiness on them. */
module Json {
  import opened Wrappers

  datatype Value =
    | JNull
    | JBool(b: bool)
    | JNumber(n: real)
    | JString(s: string)
    | JArray(items: seq<Value>)
    | JObject(fields: map<string, Value>)

  /** Python's `bool(v)`: None, False, 0, "", [] and {} are false. */
  predicate Truthy(v: Value) {
    match v
    case JNull => false
    case JBool(b) => b
    case JNumber(n) => n != 0.0
    case JString(s) => s != ""
    case JArray(items) => |items| > 0
    case JObject(fields) => |fields| > 0
  }

  /** `d.get(key)` on a dict: the field, or None (which behaves like JSON null). */
  function Field(v: Value, key: string): Value
    requires v.JObject?
  {
    if key in v.fields then v.fields[key] else JNull
  }
}

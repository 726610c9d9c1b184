/** The values that travel through the tool: JSON documents exchanged with the registry, and
    the plain Python values (`str`, `None`, `dict`, ...) that rows and dumps are made of. */
module Json {

  datatype Value =
    | JNull
    | JBool(b: bool)
    | JNumber(n: int)
    | JString(s: string)
    | JArray(items: seq<Value>)
    | JObject(fields: map<string, Value>)

  /** A JSON object, or a Python `dict` with string keys. */
  type Object = map<string, Value>

  /** Python truthiness (`bool(v)`): `None`, `False`, `0`, `""`, `[]` and `{}` are false. */
  predicate Truthy(v: Value) {
    match v
    case JNull => false
    case JBool(b) => b
    case JNumber(n) => n != 0
    case JString(s) => s != ""
    case JArray(items) => items != []
    case JObject(fields) => fields != map[]
  }
}

/** JSON values as both halves of the system see them: the bodies the client
    parses and the payloads the backend routes receive. */
module Json {
  import opened Optional

  datatype JsonValue =
    | JNull
    | JBool(b: bool)
    | JNum(n: real)
    | JStr(s: string)
    | JArr(items: seq<JsonValue>)
    | JObj(fields: map<string, JsonValue>)

  /** JavaScript truthiness of a parsed JSON value. */
  predicate JsTruthy(v: JsonValue) {
    match v
    case JNull => false
    case JBool(b) => b
    case JNum(n) => n != 0.0
    case JStr(s) => s != ""
    case JArr(_) => true
    case JObj(_) => true
  }

  /** JavaScript truthiness of a value that may be `undefined`. */
  predicate JsTruthyOpt(v: Option<JsonValue>) {
    v.Some? && JsTruthy(v.value)
  }

  /** Python truthiness of a decoded JSON value: empty containers are false. */
  predicate PyTruthy(v: JsonValue) {
    match v
    case JNull => false
    case JBool(b) => b
    case JNum(n) => n != 0.0
    case JStr(s) => s != ""
    case JArr(items) => |items| > 0
    case JObj(fields) => |fields| > 0
  }

  /** JavaScript's `v?.key` for the keys the client reads (none of them is a
      built-in property of strings, numbers or arrays): only an object has it. */
  function Member(v: JsonValue, key: string): (r: Option<JsonValue>)
    ensures r.Some? <==> v.JObj? && key in v.fields
    ensures r.Some? ==> r.value == v.fields[key]
  {
    if v.JObj? && key in v.fields then Some(v.fields[key]) else None
  }

  /** Python's `payload.get(key, default)` on a decoded JSON object. */
  function Get(payload: map<string, JsonValue>, key: string, default: JsonValue): (r: JsonValue)
    ensures key in payload ==> r == payload[key]
    ensures key !in payload ==> r == default
  {
    if key in payload then payload[key] else default
  }
}

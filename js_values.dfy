/** JavaScript values as the location store sees them: documents produced by
    JSON.parse, their truthiness, property reads, and the text that
    localStorage keeps for them. */
module JsValues {

  datatype Option<+T> = None | Some(value: T)

  /** Err carries the name of the exception the JavaScript call throws. */
  datatype Result<+T> = Ok(value: T) | Err(error: string)

  /** A value as JSON.parse returns it. Numbers are integers here (see README). */
  datatype Json =
    | JNull
    | JBool(b: bool)
    | JNum(n: int)
    | JStr(s: string)
    | JArray(items: seq<Json>)
    | JObject(fields: map<string, Json>)

  /** JavaScript truthiness: null, false, 0 and the empty string are falsy,
      every other value (objects and arrays included, even empty ones) is truthy. */
  predicate Truthy(v: Json) {
    match v
    case JNull => false
    case JBool(b) => b
    case JNum(n) => n != 0
    case JStr(s) => s != ""
    case JArray(_) => true
    case JObject(_) => true
  }

  /** The property read `v.key` on a value that is not null; None stands for
      `undefined`. Only an object has own properties with JSON keys. */
  function Property(v: Json, key: string): Option<Json> {
    if v.JObject? && key in v.fields then Some(v.fields[key]) else None
  }

  /** `v.key` is present and truthy. */
  predicate TruthyProperty(v: Json, key: string) {
    Property(v, key).Some? && Truthy(Property(v, key).value)
  }

  /** The text of a localStorage entry: either the JSON text of a document,
      or text that is not JSON at all. */
  datatype Text = Encoded(doc: Json) | Malformed(raw: string)

  /** JSON.parse; a malformed text throws SyntaxError. */
  function Parse(t: Text): (r: Result<Json>)
    ensures r.Err? <==> t.Malformed?
  {
    match t
    case Encoded(doc) => Ok(doc)
    case Malformed(_) => Err("SyntaxError")
  }

  /** JSON.stringify: the text it writes parses back to the same document. */
  function Stringify(v: Json): (t: Text)
    ensures Parse(t) == Ok(v)
  {
    Encoded(v)
  }
}

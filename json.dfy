/**
 * The JSON value tree of `serde_json::Value`. Objects are `serde_json::Map`,
 * a map from distinct keys to values; numbers are kept as their text, since
 * nothing in the modelled code computes with them.
 */
module Json {
  import opened Wrappers
  import opened Text

  datatype Json =
    | Null
    | Bool(b: bool)
    | Number(text: string)
    | String(s: string)
    | Array(items: seq<Json>)
    | Object(fields: map<string, Json>)
  {
    predicate IsScalar() { !Array? && !Object? }
  }

  /** `Value::get(key)`: only an object has members; any other value yields `None`. */
  function Get(v: Json, key: string): (r: Option<Json>)
    ensures r.Some? <==> v.Object? && key in v.fields
    ensures r.Some? ==> r.value == v.fields[key]
  {
    if v.Object? && key in v.fields then Some(v.fields[key]) else None
  }

  /** `Value::as_str`. */
  function AsStr(v: Json): Option<string> {
    if v.String? then Some(v.s) else None
  }

  /** `Value::as_array`. */
  function AsArray(v: Json): Option<seq<Json>> {
    if v.Array? then Some(v.items) else None
  }

  /** `Value::as_bool`. */
  function AsBool(v: Json): Option<bool> {
    if v.Bool? then Some(v.b) else None
  }

  /** A string-to-string map (a header map) as a JSON object of strings. */
  function StringMapToJson(m: map<string, string>): (r: Json)
    ensures r.Object? && r.fields.Keys == m.Keys
    ensures forall k :: k in m ==> r.fields[k] == String(m[k])
  {
    Object(map k | k in m :: String(m[k]))
  }

  /**
   * The JSON parser (`serde_json::from_slice` / `from_str`) is not modelled:
   * each operation that parses receives it as one of these functions.
   */
  type BytesParser = seq<byte> -> Option<Json>
  type TextParser = string -> Result<Json, JsonError>

  /** `serde_json::Error`, opaque apart from its message. */
  datatype JsonError = JsonError(message: string)

  /** The serialiser (`Display` of a value, `serde_json::to_string`) is not modelled either. */
  type Renderer = Json -> string
}

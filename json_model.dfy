/**
 * The values `json.loads` (RFC 8259) can produce, and the outcome of the parse.
 * The parser itself is left abstract: callers pass it as a total function from
 * text to `Parsed`.
 */
module JsonModel {

  /** A JSON value. An object keeps its members in document order, as the dict
      returned by `json.loads` iterates them. Numbers keep their literal text. */
  datatype Json =
    | JString(str: string)
    | JNumber(literal: string)
    | JBool(b: bool)
    | JNull
    | JArray(elements: seq<Json>)
    | JObject(members: seq<(string, Json)>)

  /** The result of `json.loads`: a value, or a `JSONDecodeError`. */
  datatype Parsed = Decoded(value: Json) | DecodeError
}

/**
 * JSON values as the adapter sees them, and `JSON.parse`/`JSON.stringify`
 * as opaque library functions.  No JSON grammar is modelled: a codec is any
 * pair of functions, and properties that need parsing to undo serialising
 * ask for it explicitly with `RoundTrips`.
 */
module Json {
  import opened Wrappers

  /** A JSON value.  Numbers keep their literal text; their arithmetic
      meaning plays no part in the adapter. */
  datatype Json =
    | JNull
    | JBool(b: bool)
    | JNumber(literal: string)
    | JString(text: string)
    | JArray(items: seq<Json>)
    | JObject(fields: map<string, Json>)

  /** `JSON.parse` (`None` when it throws) and `JSON.stringify` (`None` when
      it yields `undefined`). */
  datatype JsonCodec = JsonCodec(parse: string -> Option<Json>, stringify: Json -> Option<string>)

  /** Parsing the serialisation of `j` gives `j` back. */
  predicate RoundTrips(codec: JsonCodec, j: Json) {
    codec.stringify(j).Some? && codec.parse(codec.stringify(j).value) == Some(j)
  }

  /** `fault.error_type` for a parsed fault, when it is a string: `null`,
      non-objects, a missing field and non-string values give `None`. */
  function ErrorTypeField(fault: Json): Option<string> {
    match fault
    case JObject(fields) =>
      if "error_type" in fields && fields["error_type"].JString? then Some(fields["error_type"].text) else None
    case _ => None
  }
}

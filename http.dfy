/**
 The HTTP and JSON inputs of the measurement-source adapters, taken as given.
 A GET is a `Request`; what the network answers is a `Response`: the status code
 returned by HTTPClient::GET and the outcome of deserializeJson on the payload.
 The transport is a parameter `http: Request -> Response`, one answer per request.
 */
module Http {
  import opened Wrappers

  /** A parsed JSON value, as far as the adapters look into it. */
  datatype Json =
    | Num(n: real)
    | Str(s: string)
    | Arr(items: seq<Json>)
    | Obj(fields: map<string, Json>)
    | Other  // null, booleans

  /** How deserializeJson ended: an error (with its f_str() text) or a document. */
  datatype Body = ParseError(reason: string) | Parsed(doc: Json)

  datatype Response = Response(code: int, body: Body)

  /** An HTTP GET of `url`; `bearer` is the token of an `Authorization: Bearer` header, if any. */
  datatype Request = Get(url: string, bearer: Option<string>)

  /** HTTP_CODE_OK */
  const HTTP_CODE_OK: int := 200

  /** JsonDocument::containsKey / JsonObject::containsKey: false on anything but an object. */
  predicate ContainsKey(doc: Json, key: string) {
    doc.Obj? && key in doc.fields
  }

  /** doc[key], null (Other) when the key is absent or doc is not an object. */
  function Member(doc: Json, key: string): (v: Json)
    ensures !ContainsKey(doc, key) ==> v == Other
  {
    if ContainsKey(doc, key) then doc.fields[key] else Other
  }

  /**
   JsonVariant::as<float>() on a number. Anything else reads as 0 here; ArduinoJson
   would also convert numeric strings and booleans, which the devices do not send.
   */
  function AsFloat(v: Json): real {
    if v.Num? then v.n else 0.0
  }

  /** The idiom `doc.containsKey(k) ? doc[k].as<float>() : dflt`. */
  function FloatOr(doc: Json, key: string, dflt: real): real {
    if ContainsKey(doc, key) then AsFloat(Member(doc, key)) else dflt
  }

  /** `doc[key]` read as `const char*`: present only if the member is a string. */
  function StringMember(doc: Json, key: string): (s: Option<string>)
    ensures s.Some? <==> ContainsKey(doc, key) && Member(doc, key).Str?
  {
    if ContainsKey(doc, key) && Member(doc, key).Str? then Some(Member(doc, key).s) else None
  }

  /** A string that ends with `suffix` (String::endsWith). */
  predicate EndsWith(s: string, suffix: string) {
    |suffix| <= |s| && s[|s| - |suffix|..] == suffix
  }
}

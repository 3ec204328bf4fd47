/**
 JSON values as Python's `json.loads` produces them (None, bool, number, str, list, dict),
 and the outcome of decoding a text. The codec itself is not modelled: decoding is
 supplied to the routers as a function `string -> Decoded`.
 */
module JsonValues {
  import opened Options

  datatype Json =
    | JNull
    | JBool(b: bool)
    | JNumber(n: real)
    | JString(s: string)
    | JArray(items: seq<Json>)
    | JObject(fields: map<string, Json>)

  /** `json.loads(text)` either yields a value or raises `JSONDecodeError`. */
  datatype Decoded = Parsed(value: Json) | NotJson

  /**
   The string held under `key`, read the way `data[key]` feeds a `str` field of a
   pydantic model: only an object with that key mapped to a JSON string yields a value.
   */
  function StringField(data: Json, key: string): (r: Option<string>)
    ensures r.Some? <==> data.JObject? && key in data.fields && data.fields[key].JString?
    ensures r.Some? ==> data.fields[key] == JString(r.value)
  {
    match data
    case JObject(fields) =>
      if key in fields && fields[key].JString? then Some(fields[key].s) else None
    case _ => None
  }
}

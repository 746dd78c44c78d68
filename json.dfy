/**
 * A parsed JSON document as `response.json()` hands it to the tools: the
 * Python value built from it (`None`, `bool`, `int`, `str`, `list`, `dict`).
 */
module Json {

  /** JSON numbers are carried as integers; see README, "Left out". */
  datatype Json =
    | JNull
    | JBool(b: bool)
    | JNumber(n: int)
    | JString(s: string)
    | JArray(items: seq<Json>)
    | JObject(fields: map<string, Json>)

  /** Python's name of the value's type, as it appears in exception texts. */
  function TypeName(j: Json): string {
    match j
    case JNull => "NoneType"
    case JBool(_) => "bool"
    case JNumber(_) => "int"
    case JString(_) => "str"
    case JArray(_) => "list"
    case JObject(_) => "dict"
  }

  /** The one-entry dict `{"error": message}` the tools return on failure. */
  function ErrorDict(message: string): (d: Json)
    ensures d.JObject? && d.fields.Keys == {"error"} && d.fields["error"] == JString(message)
  {
    JObject(map["error" := JString(message)])
  }
}

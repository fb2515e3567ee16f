/** The JSON data model: what `encoding/json` decodes into `interface{}` and encodes back. */
module JsonValue {

  datatype Json =
    | JNull
    | JBool(b: bool)
    | JNumber(n: real)
    | JString(s: string)
    | JArray(items: seq<Json>)
    | JObject(fields: map<string, Json>)
}

/** A decoded JSON document. */
module JsonValues {

  /** A JSON value; an object is a map from keys to values. Integers and floats
      are distinct kinds of number, as in `serde_json`, whose deserialiser accepts
      only an integer for an integer field. */
  datatype Json =
    | JNull
    | JBool(b: bool)
    | JInt(i: int)
    | JFloat(f: real)
    | JString(s: string)
    | JArray(items: seq<Json>)
    | JObject(fields: map<string, Json>)
}

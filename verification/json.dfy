/**
 * JSON-like values: what `json.loads` produces, what the record schemas are
 * validated from, and what the debug helper walks over. Numbers are
 * integers only: JSON floats are not part of this model, and neither is the
 * text encoding.
 */
module JsonValue {
  import opened Wrappers

  datatype Json =
    | JNull
    | JBool(b: bool)
    | JInt(i: int)
    | JStr(s: string)
    | JArray(items: seq<Json>)
    | JObject(fields: map<string, Json>)

  /** The value stored under `key` when `j` is an object that has that key. */
  function Member(j: Json, key: string): Option<Json>
  {
    if j.JObject? && key in j.fields then Some(j.fields[key]) else None
  }
}

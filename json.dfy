/** JSON values, as `json.loads` / `json_repair.loads` produce them and `json.dumps` consumes them. */
module JsonValues {
  import opened Wrappers
  import opened Dicts

  datatype Json =
    | JNull
    | JBool(b: bool)
    | JNumber(n: int)
    | JString(s: string)
    | JArray(items: seq<Json>)
    | JObject(fields: Dict<string, Json>)

  /** `key in obj` for a JSON object (false for every other value). */
  predicate HasField(j: Json, key: string)
  {
    j.JObject? && HasKey(j.fields, key)
  }

  /** `obj[key]`, defined when the key is present. */
  function Field(j: Json, key: string): (r: Json)
    requires HasField(j, key)
    ensures Get(j.fields, key) == Some(r)
  {
    Get(j.fields, key).value
  }
}

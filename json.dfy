/** Decoded JSON values as the client receives them from the service. */
module Json {

  datatype Json =
    | JNull
    | JBool(b: bool)
    | JInt(i: int)
    | JStr(s: string)
    | JArray(items: seq<Json>)
    | JObject(fields: map<string, Json>)

  /** `isinstance(x, dict) and 'error' in x`: the service's way of reporting a failed query. */
  predicate IsErrorPayload(j: Json)
  {
    j.JObject? && "error" in j.fields
  }
}

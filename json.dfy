/** JSON values as org.json holds them in memory (JSONObject, JSONArray, strings, numbers). */
module JsonValues {

  datatype Json =
    | JNull
    | JBool(b: bool)
    | JNumber(n: real)
    | JString(s: string)
    | JArray(items: seq<Json>)
    | JObject(fields: map<string, Json>)

  /** A JSONObject: its keys and the value stored under each. */
  type JsonObject = map<string, Json>

  /** Double.intValue on a number in int range: the integer part, rounding toward zero. */
  function TruncateToInt(x: real): (i: int)
    ensures 0.0 <= x ==> i as real <= x < i as real + 1.0
    ensures x < 0.0 ==> i as real - 1.0 < x <= i as real
  {
    if 0.0 <= x then x.Floor else -((-x).Floor)
  }

  lemma TruncateIntegral(i: int)
    ensures TruncateToInt(i as real) == i
  {
  }
}

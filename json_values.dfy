/**
 * The values `JSON.parse` produces and `JSON.stringify` consumes. Numbers are
 * JavaScript doubles in the program; they are exact reals here.
 */
module JsonValues {

  datatype Json =
    | JNull
    | JBool(b: bool)
    | JNumber(n: real)
    | JString(s: string)
    | JArray(items: seq<Json>)
    | JObject(fields: map<string, Json>)

  /** `z.number().int()`: a number with no fractional part. */
  predicate IsIntegral(n: real) {
    n.Floor as real == n
  }
}

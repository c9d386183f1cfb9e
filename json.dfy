/**
 * JSON values as the gateway sees them after parsing: the cache stores them,
 * the upstream API returns them, request bodies are built from them.
 * Serialisation is the identity (the round trip through text is not modelled).
 */
module Json {

  /** A JSON value; objects are keyed maps because member order carries no meaning. */
  datatype Json =
    | JNull
    | JBool(b: bool)
    | JNum(n: int)
    | JStr(s: string)
    | JArr(items: seq<Json>)
    | JObj(fields: map<string, Json>)

  /**
   * Python truthiness of the value `json.loads` returns: `None`, `False`, `0`,
   * `""`, `[]` and `{}` are false, everything else is true.
   */
  predicate Truthy(j: Json)
  {
    match j
    case JNull => false
    case JBool(b) => b
    case JNum(n) => n != 0
    case JStr(s) => s != ""
    case JArr(items) => items != []
    case JObj(fields) => fields != map[]
  }

  /** A JSON array of strings, as built from a Python list of `str`. */
  function StrArray(xs: seq<string>): (j: Json)
    ensures j.JArr? && |j.items| == |xs|
    ensures forall i | 0 <= i < |xs| :: j.items[i] == JStr(xs[i])
  {
    if xs == [] then JArr([]) else JArr([JStr(xs[0])] + StrArray(xs[1..]).items)
  }
}

/** Values produced by decoding a JSON document.

    A number keeps its literal text: the sweep never computes with numbers,
    it only carries them into the parameters of a task. Python's `None`
    and JSON's `null` decode to the same value, `JNull`. */
module JsonValues {

  datatype Json =
    | JNull
    | JBool(b: bool)
    | JNumber(literal: string)
    | JString(s: string)
    | JArray(items: seq<Json>)
    | JObject(members: map<string, Json>)
}

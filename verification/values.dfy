/**
 * Values that cross the gateway: optional values (JavaScript's `undefined`
 * becomes `None`) and the JSON bodies handed to `res.json`.
 */
module Values {

  datatype Option<T> = None | Some(value: T)

  /** A JSON value; an object keeps its members in insertion order. */
  datatype Json =
    | JNull
    | JBool(b: bool)
    | JNumber(n: real)
    | JString(s: string)
    | JArray(items: seq<Json>)
    | JObject(members: seq<(string, Json)>)

  /**
   * Reading property `k` of a plain object such as `req.params`: the value
   * bound to `k`, or `undefined` when `k` was never bound.
   */
  function Prop<V>(m: map<string, V>, k: string): Option<V> {
    if k in m then Some(m[k]) else None
  }

  /** The member names of a JSON object, in order (empty for non-objects). */
  function Names(j: Json): (ns: seq<string>)
    ensures j.JObject? ==> |ns| == |j.members|
    ensures forall i :: 0 <= i < |ns| ==> j.JObject? && i < |j.members| && ns[i] == j.members[i].0
  {
    match j
    case JObject(ms) => seq(|ms|, i requires 0 <= i < |ms| => ms[i].0)
    case _ => []
  }

  /** `obj.k`: the value of the first member named `k` of `j`, if any. */
  function Field(j: Json, k: string): (r: Option<Json>)
    ensures r.Some? <==> j.JObject? && k in Names(j)
  {
    match j
    case JObject(ms) => Member(ms, k)
    case _ => None
  }

  /** The value of the first member named `k`, if any. */
  function Member(ms: seq<(string, Json)>, k: string): (r: Option<Json>)
    ensures r.Some? <==> exists i :: 0 <= i < |ms| && ms[i].0 == k
    ensures r.Some? ==> exists i :: 0 <= i < |ms| && ms[i] == (k, r.value)
  {
    if |ms| == 0 then None
    else if ms[0].0 == k then Some(ms[0].1)
    else Member(ms[1..], k)
  }
}

/**
 * The small part of JSON the model needs: a parsed JSON value, and the two ways
 * encoding/json decodes such a value into the Go targets used by the function
 * call setting (a `string` and a `map[string]string`). General JSON text
 * parsing and encoding are not modelled.
 */
module Json {
  import opened Wrappers

  /** A parsed JSON value; numbers are carried as integers, nothing computes with them. */
  datatype Json =
    | JNull
    | JBool(b: bool)
    | JNumber(n: int)
    | JString(s: string)
    | JArray(items: seq<Json>)
    | JObject(members: map<string, Json>)

  predicate IsStringOrNull(j: Json) {
    j.JString? || j.JNull?
  }

  /** What a Go `string` holds after a JSON string or `null` is decoded into it from empty. */
  function StringOrEmpty(j: Json): (s: string) {
    if j.JString? then j.s else ""
  }

  /**
   * Decoding into a Go `string` variable that starts out empty: a JSON string
   * sets it, `null` leaves it empty without an error, anything else fails.
   */
  function DecodeString(j: Json): (r: Option<string>)
    ensures r.Some? <==> IsStringOrNull(j)
    ensures r.Some? ==> r.value == StringOrEmpty(j)
  {
    match j
    case JString(s) => Some(s)
    case JNull => Some("")
    case _ => None
  }

  /**
   * Decoding into a Go `map[string]string`: `null` gives the nil (empty) map,
   * an object succeeds when every member is a string or `null` (a `null`
   * member stores the empty string), anything else fails.
   */
  function DecodeStringMap(j: Json): (r: Option<map<string, string>>)
    ensures r.Some? <==> j.JNull? || (j.JObject? && forall k :: k in j.members ==> IsStringOrNull(j.members[k]))
    ensures j.JNull? ==> r == Some(map[])
    ensures j.JObject? && r.Some? ==>
      r.value.Keys == j.members.Keys && forall k :: k in j.members ==> r.value[k] == StringOrEmpty(j.members[k])
  {
    match j
    case JNull => Some(map[])
    case JObject(ms) =>
      if forall k :: k in ms ==> IsStringOrNull(ms[k])
      then Some(map k | k in ms :: StringOrEmpty(ms[k]))
      else None
    case _ => None
  }

  /** Go's `m[k]` on a `map[string]string`: the empty string for a missing key. */
  function Lookup(m: map<string, string>, k: string): (v: string) {
    if k in m then m[k] else ""
  }
}

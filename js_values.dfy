/**
 * The slice of JavaScript values the components inspect: decoded JSON from
 * the backend, JavaScript truthiness, and the `||` and `??` fallbacks.
 * Numbers are modelled as integers.
 */
module JsValues {
  import opened Wrappers

  datatype Json =
    | JNull
    | JBool(b: bool)
    | JNum(n: int)
    | JStr(s: string)
    | JArr(elems: seq<Json>)
    | JObj(fields: map<string, Json>)

  /** JavaScript truthiness: `null`, `false`, `0` and `""` are falsy; arrays and objects are truthy. */
  predicate Truthy(v: Json)
  {
    match v
    case JNull => false
    case JBool(b) => b
    case JNum(n) => n != 0
    case JStr(s) => s != ""
    case JArr(_) => true
    case JObj(_) => true
  }

  /** `v?.key`: the property of an object, `None` (undefined) for anything else or a missing key. */
  function Field(v: Json, key: string): (r: Option<Json>)
    ensures r.Some? <==> v.JObj? && key in v.fields
    ensures r.Some? ==> r.value == v.fields[key]
  {
    if v.JObj? && key in v.fields then Some(v.fields[key]) else None
  }

  /** `a || b` where `a` may be undefined. */
  function Or(a: Option<Json>, b: Json): (r: Json)
    ensures a.Some? && Truthy(a.value) ==> r == a.value
    ensures (a.None? || !Truthy(a.value)) ==> r == b
  {
    if a.Some? && Truthy(a.value) then a.value else b
  }

  /** `a ?? b` where `a` may be undefined: only `null` and undefined fall through. */
  function Coalesce(a: Option<Json>, b: Json): (r: Json)
    ensures a.Some? && a.value != JNull ==> r == a.value
    ensures (a.None? || a.value == JNull) ==> r == b
  {
    if a.Some? && a.value != JNull then a.value else b
  }

  /** `s || fallback` for a string that may be undefined: the empty string falls through too. */
  function StringOr(s: Option<string>, fallback: string): (r: string)
    ensures r == fallback || (s.Some? && r == s.value)
    ensures r == fallback <==> s.None? || s.value == "" || s.value == fallback
  {
    if s.Some? && s.value != "" then s.value else fallback
  }
}

/**
 * The parsed JSON value that serde_json hands the program (`serde_json::Value`).
 * Text parsing and printing are not modelled: the store holds values.
 */
module JsonValue {

  /** An object is a map: without its `preserve_order` feature serde_json keeps no key order. */
  datatype Json =
    | JNull
    | JBool(b: bool)
    | JNum(n: real)
    | JStr(s: string)
    | JArr(items: seq<Json>)
    | JObj(fields: map<string, Json>)

  /**
   * Whether `v[key] = x` (serde_json's `IndexMut<&str>`) goes through: it turns
   * `null` into an empty object first and panics on every other non-object.
   */
  predicate KeyAssignable(v: Json)
  {
    v.JObj? || v.JNull?
  }

  /** `v[key] = x` on a value that accepts it. */
  function AssignKey(v: Json, key: string, x: Json): (r: Json)
    requires KeyAssignable(v)
    ensures r.JObj? && key in r.fields && r.fields[key] == x
    ensures v.JObj? ==> r.fields.Keys == v.fields.Keys + {key}
    ensures v.JNull? ==> r.fields.Keys == {key}
    ensures forall k :: k in r.fields && k != key ==> v.JObj? && k in v.fields && r.fields[k] == v.fields[k]
  {
    var fields := if v.JObj? then v.fields else map[];
    JObj(fields[key := x])
  }
}

/**
 * A request body as `req.json()` yields it, with the two JavaScript notions the handlers
 * apply to it: truthiness, and optional property access (`v?.key`), which gives
 * `undefined` (here `None`) on anything that is not an object holding that key.
 */
module JsonValues {
  import opened Wrappers

  datatype Json =
    | JNull
    | JBool(b: bool)
    | JNum(n: real)
    | JStr(s: string)
    | JArr(elems: seq<Json>)
    | JObj(fields: map<string, Json>)

  /** JavaScript truthiness of a possibly-undefined value: `undefined`, `null`, `false`, `0` and `""` are falsy. */
  predicate Truthy(v: Option<Json>) {
    match v
    case None => false
    case Some(j) =>
      match j
      case JNull => false
      case JBool(b) => b
      case JNum(n) => n != 0.0
      case JStr(s) => s != ""
      case JArr(_) => true
      case JObj(_) => true
  }

  /**
   * `v?.key`: the property `key` of an object. Arrays, strings and the other primitives
   * carry none of the property names the handlers read, so they give `undefined`.
   */
  function Member(v: Option<Json>, key: string): (r: Option<Json>)
    ensures r.Some? <==> v.Some? && v.value.JObj? && key in v.value.fields
    ensures r.Some? ==> r.value == v.value.fields[key]
  {
    match v
    case Some(JObj(fields)) => if key in fields then Some(fields[key]) else None
    case _ => None
  }

  /** `Array.isArray(v)`. */
  predicate IsArray(v: Option<Json>) {
    v.Some? && v.value.JArr?
  }

  /** A value with at least one key: a non-empty object, array or string. */
  predicate HasKeys(j: Json) {
    || (j.JObj? && j.fields != map[])
    || (j.JArr? && j.elems != [])
    || (j.JStr? && j.s != "")
  }

  /**
   * `Object.keys(v).length` for a value that is not `null`: the keys of an object, the
   * indices of an array or of a string, and none for a number or a boolean.
   */
  function KeyCount(j: Json): (n: nat)
    requires j != JNull
    ensures n > 0 <==> HasKeys(j)
  {
    match j
    case JObj(fields) => |fields.Keys|
    case JArr(elems) => |elems|
    case JStr(s) => |s|
    case JNum(_) => 0
    case JBool(_) => 0
  }
}

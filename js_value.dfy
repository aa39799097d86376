/** Parsed JSON as JavaScript sees it: optional chaining (`a?.b`, `a?.[i]`),
    truthiness, `||` and `typeof x === 'string'`. `undefined` is `None`. */
module JsValue {
  import opened Common

  datatype Json =
    | JNull
    | JBool(b: bool)
    | JNum(n: real)
    | JStr(s: string)
    | JArr(items: seq<Json>)
    | JObj(fields: map<string, Json>)

  /** JavaScript truthiness of a JSON value (JSON has no NaN). */
  predicate Truthy(v: Option<Json>)
  {
    match v
    case None => false
    case Some(JNull) => false
    case Some(JBool(b)) => b
    case Some(JNum(n)) => n != 0.0
    case Some(JStr(s)) => s != ""
    case Some(JArr(_)) => true
    case Some(JObj(_)) => true
  }

  /** `v?.key`: a property of an object; `undefined` for anything else. */
  function Field(v: Option<Json>, key: string): (r: Option<Json>)
    ensures r.Some? ==> v.Some? && v.value.JObj? && key in v.value.fields
  {
    match v
    case Some(JObj(m)) => if key in m then Some(m[key]) else None
    case _ => None
  }

  /** `v?.[i]`: an element of an array; `undefined` for anything else. */
  function At(v: Option<Json>, i: nat): (r: Option<Json>)
    ensures r.Some? ==> v.Some? && v.value.JArr? && i < |v.value.items|
  {
    match v
    case Some(JArr(xs)) => if i < |xs| then Some(xs[i]) else None
    case _ => None
  }

  /** `a || b` */
  function Or(a: Option<Json>, b: Option<Json>): (r: Option<Json>)
    ensures Truthy(a) ==> r == a
    ensures !Truthy(a) ==> r == b
  {
    if Truthy(a) then a else b
  }

  /** `Array.isArray(v)` */
  predicate IsArray(v: Option<Json>)
  {
    v.Some? && v.value.JArr?
  }

  /** The string held by `v` when `typeof v === 'string'`. */
  function AsString(v: Option<Json>): (r: Option<string>)
    ensures r.Some? <==> v.Some? && v.value.JStr?
  {
    match v
    case Some(JStr(s)) => Some(s)
    case _ => None
  }
}

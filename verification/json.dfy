/** JavaScript values as they flow through the service: JSON data parsed from
    upstream replies, plus `undefined`, which is `None` wherever a value may be
    missing. */
module JsValues {

  datatype Option<+T> = None | Some(value: T)

  /** A JSON value. Numbers are kept exact and are never computed with. */
  datatype Json =
    | Null
    | Bool(b: bool)
    | Num(n: real)
    | Str(s: string)
    | Arr(items: seq<Json>)
    | Obj(fields: map<string, Json>)

  /** The object literal `{}`. */
  const EmptyObject: Json := Obj(map[])

  /** `v == undefined` under JavaScript's loose equality, which also holds of `null`. */
  predicate IsNullish(v: Option<Json>)
  {
    v.None? || v.value.Null?
  }

  /** JavaScript truthiness, as used by `if (v)`. */
  predicate Truthy(v: Option<Json>)
  {
    match v
    case None => false
    case Some(j) =>
      match j
      case Null => false
      case Bool(b) => b
      case Num(n) => n != 0.0
      case Str(s) => s != ""
      case Arr(_) => true
      case Obj(_) => true
  }

  /** The property names the service reads from a fund record. */
  const RecordFields: set<string> := {"values", "fundSecurityId", "currency", "timeStamp"}

  /** Property read `v.name` on a value that is neither null nor undefined, for a
      record field name. `None` is `undefined`. Strings, numbers and booleans carry
      none of these properties; an array inherits a `values` method, which JSON
      output drops just as it drops `undefined`, so it is `None` here too. */
  function Field(v: Json, name: string): (r: Option<Json>)
    requires !v.Null? && name in RecordFields
    ensures r.Some? <==> v.Obj? && name in v.fields
    ensures r.Some? ==> r.value == v.fields[name]
  {
    match v
    case Obj(fields) => if name in fields then Some(fields[name]) else None
    case _ => None
  }
}

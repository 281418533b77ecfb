/**
 * JSON values as the stores see them after `JSON.parse` or as plain objects:
 * the settings tree, table filter values and admin-user records.
 * Numbers are integers here; arrays are not modelled.
 */
module Json {
  import opened Common

  datatype Value = Null | Bool(b: bool) | Num(n: int) | Str(s: string) | Obj(fields: map<string, Value>)

  /** JavaScript truthiness of a present value. */
  predicate Truthy(v: Value) {
    match v
    case Null => false
    case Bool(b) => b
    case Num(n) => n != 0
    case Str(s) => s != ""
    case Obj(_) => true
  }

  /**
   * Optional property access `v?.[key]`, with `None` standing for `undefined`.
   * Reading a property of a primitive yields `undefined` (built-in properties
   * such as `length` are not modelled).
   */
  function Prop(v: Option<Value>, key: string): (r: Option<Value>)
    ensures r.Some? ==> v.Some? && v.value.Obj? && key in v.value.fields
  {
    match v
    case Some(Obj(m)) => if key in m then Some(m[key]) else None
    case _ => None
  }

  /** The string stored under `key` of an object, if it is one. */
  function StrProp(m: map<string, Value>, key: string): Option<string> {
    if key in m && m[key].Str? then Some(m[key].s) else None
  }
}

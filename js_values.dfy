/**
 * The few pieces of JavaScript semantics the session store and the route guard
 * rely on: optional values, the dynamic values a backend row carries, and the
 * operators `??`, `String(...)` and `Boolean(...)` applied to them.
 */
module JsValues {

  /** `None` stands for JavaScript's `undefined` (an absent key, an optional
      chain that stopped) or for a `null` reference, depending on the field. */
  datatype Option<+T> = None | Some(value: T)

  /** A column value as it arrives in an untyped row: JSON null, a boolean or a
      string. */
  datatype Value = Null | Bool(b: bool) | Str(s: string)

  /** `v == null || v === undefined`, the test behind `??`. */
  predicate Nullish(v: Option<Value>) {
    v.None? || v.value.Null?
  }

  /** `v ?? fallback`. */
  function Coalesce(v: Option<Value>, fallback: Value): Value {
    if Nullish(v) then fallback else v.value
  }

  /** `Boolean(v)`: `undefined`, `null`, `false` and the empty string are falsy. */
  predicate Truthy(v: Option<Value>) {
    match v
    case None => false
    case Some(Null) => false
    case Some(Bool(b)) => b
    case Some(Str(s)) => s != ""
  }

  /** `String(v)`. */
  function JsString(v: Option<Value>): string {
    match v
    case None => "undefined"
    case Some(Null) => "null"
    case Some(Bool(b)) => if b then "true" else "false"
    case Some(Str(s)) => s
  }
}

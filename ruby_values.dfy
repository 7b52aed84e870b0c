/**
 * The few Ruby value rules the command layer relies on: the values found in
 * an options hash or in the preference file, `Hash#[]` answering nil for a
 * missing key, and the truthiness behind `||` and `!`.
 */
module RubyValues {

  /** A value held by an options hash, the preference file or a create-options hash. */
  datatype Value =
    | Nil
    | Bool(b: bool)
    | Num(n: int)
    | Str(s: string)
    | Hash(entries: Dict)
    | Object   // any other object, such as a freshly built daemon handle

  /** A hash with string keys: Thor's options, the preferences, the create options. */
  type Dict = map<string, Value>

  /** Ruby truthiness: everything except `nil` and `false`. */
  predicate Truthy(v: Value) {
    v != Nil && v != Bool(false)
  }

  /** Ruby's `!v`, which always yields a boolean. */
  function Not(v: Value): Value {
    Bool(!Truthy(v))
  }

  /** `h[k]`: the stored value, or `nil` when the key is absent. */
  function Lookup(h: Dict, k: string): Value {
    if k in h then h[k] else Nil
  }
}

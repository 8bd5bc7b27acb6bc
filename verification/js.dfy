/** JavaScript values as far as the client inspects them: optional values,
    absent/null/string values, truthiness and string coercion. */
module Js {

  /** The conventional Some/None datatype, used for `localStorage.getItem`
      results (null or a string) and for optional reply parts. */
  datatype Option<+T> = None | Some(value: T)

  /** A value the client reads out of a reply body or passes to a storage
      call: `undefined`, `null` or a string. Numbers, objects and arrays are
      not modelled at these positions. */
  datatype Value = Undefined | Null | Str(s: string)

  /** JavaScript truthiness on `Value`: only a non-empty string is truthy. */
  predicate Truthy(v: Value) {
    v.Str? && v.s != ""
  }

  /** What `localStorage.getItem` hands back for a stored item. */
  function Item(stored: Option<string>): Value {
    match stored
    case None => Null
    case Some(t) => Str(t)
  }

  /** `String(v)`: the text a value turns into when it is stored with
      `localStorage.setItem` or spliced into a template literal. */
  function ToText(v: Value): string {
    match v
    case Undefined => "undefined"
    case Null => "null"
    case Str(t) => t
  }

  /** `a || b` on strings: `a` when it is truthy, `b` otherwise. */
  function OrElse(a: Value, b: string): (r: string)
    ensures Truthy(a) ==> r == a.s && r != ""
    ensures !Truthy(a) ==> r == b
  {
    if Truthy(a) then a.s else b
  }

  /** A stored item is truthy exactly when it is present and non-empty. */
  lemma ItemTruthy(stored: Option<string>)
    ensures Truthy(Item(stored)) <==> stored.Some? && stored.value != ""
  {
  }
}

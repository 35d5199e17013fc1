// Optional values: JavaScript's `null` / `undefined` for the values the
// console stores and looks up.
module Wrappers {

  datatype Option<+T> = None | Some(value: T) {

    /** The value, or `default` when absent (JavaScript's `x ?? default`). */
    function GetOr(default: T): (r: T)
      ensures Some? ==> r == value
      ensures None? ==> r == default
    {
      match this
      case Some(v) => v
      case None => default
    }
  }

  /** A string JavaScript treats as true: present and non-empty. */
  predicate Truthy(o: Option<string>) {
    o.Some? && o.value != ""
  }

  /** `o || fallback` on a string that may be absent. */
  function Or(o: Option<string>, fallback: string): (r: string)
    ensures Truthy(o) ==> r == o.value
    ensures !Truthy(o) ==> r == fallback
  {
    if Truthy(o) then o.value else fallback
  }

  /**
   * `a || b` on two strings that may be absent. When both are falsy
   * JavaScript yields `b` itself (`undefined` or the empty string); every
   * caller only tests that result for truthiness, so it is `None` here.
   */
  function FirstTruthy(a: Option<string>, b: Option<string>): (r: Option<string>)
    ensures r.Some? <==> Truthy(a) || Truthy(b)
    ensures Truthy(a) ==> r == a
    ensures !Truthy(a) && Truthy(b) ==> r == b
    ensures r.Some? ==> r.value != ""
  {
    if Truthy(a) then a else if Truthy(b) then b else None
  }
}

/** The one piece of JavaScript semantics the build configuration leans on:
    `a || b` where `a` is an optional string. */
module Js {
  import opened Wrappers

  /** A string is truthy in JavaScript exactly when it is non-empty; an absent
      (undefined) value is falsy. */
  predicate Truthy(a: Option<string>) {
    a.Some? && a.value != ""
  }

  /** `a || fallback`: the value of `a` when it is truthy, the fallback otherwise. */
  function OrElse(a: Option<string>, fallback: string): (r: string)
    ensures Truthy(a) ==> r == a.value
    ensures !Truthy(a) ==> r == fallback
    ensures r == "" <==> (!Truthy(a) && fallback == "")
  {
    if Truthy(a) then a.value else fallback
  }
}

/** Option and the few JavaScript value conventions the model relies on. */
module Wrappers {

  /** `None` stands for JavaScript's `undefined` (and, for numbers, `NaN`). */
  datatype Option<+T> = None | Some(value: T)

  /** `s[i]` in JavaScript: the element, or `undefined` outside the array. */
  function At<T>(s: seq<T>, i: int): (r: Option<T>)
    ensures r.Some? <==> 0 <= i < |s|
    ensures r.Some? ==> r.value == s[i]
  {
    if 0 <= i < |s| then Some(s[i]) else None
  }

  /** A string is truthy in JavaScript when it is defined and not empty. */
  predicate Truthy(s: Option<string>)
  {
    s.Some? && s.value != ""
  }

  /** `s || ""`. */
  function OrEmpty(s: Option<string>): (r: string)
    ensures Truthy(s) ==> r == s.value
    ensures !Truthy(s) ==> r == ""
  {
    if Truthy(s) then s.value else ""
  }
}

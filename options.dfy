/** An optional value: JavaScript's `undefined`/`null` versus a present value. */
module Options {

  datatype Option<+T> = None | Some(value: T)

  /** JavaScript truthiness of an optional string: present and non-empty. */
  predicate Truthy(s: Option<string>) {
    s.Some? && s.value != ""
  }

  /** `s || fallback` for an optional string. */
  function OrElse(s: Option<string>, fallback: string): (r: string)
    ensures Truthy(s) ==> r == s.value
    ensures !Truthy(s) ==> r == fallback
    ensures r != "" <==> Truthy(s) || fallback != ""
  {
    if Truthy(s) then s.value else fallback
  }
}

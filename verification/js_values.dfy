/** JavaScript values the theme script reads: nullable strings and the `||` operator on them. */
module JsValues {

  /** A value that may be JavaScript's `null`, as `getItem` and `getAttribute` return it. */
  datatype Option<+T> = None | Some(value: T)

  /** JavaScript truthiness of a nullable string: `null` and the empty string are falsy. */
  predicate Truthy(s: Option<string>)
  {
    s.Some? && s.value != ""
  }

  /** The expression `s || fallback` for a nullable string `s`. */
  function Or(s: Option<string>, fallback: string): (r: string)
    ensures Truthy(s) ==> Some(r) == s
    ensures !Truthy(s) ==> r == fallback
    ensures r == fallback || Some(r) == s
    ensures r == "" ==> fallback == ""
  {
    if Truthy(s) then s.value else fallback
  }
}

/** JavaScript values the modelled code tests for truthiness. */
module JsValues {

  /** A value that may be `null` or `undefined` (both read as `None`). */
  datatype Option<+T> = None | Some(value: T)

  /** A JavaScript string is truthy when it is present and not the empty string. */
  function Truthy(s: Option<string>): (t: bool)
    ensures !t <==> s == None || s == Some("")
  {
    s.Some? && s.value != ""
  }

  /** The value of `a || b` for two possibly absent strings: `a` when it is truthy, else `b`. */
  function Or(a: Option<string>, b: Option<string>): (r: Option<string>)
    ensures Truthy(a) ==> r == a
    ensures !Truthy(a) ==> r == b
    ensures Truthy(r) <==> Truthy(a) || Truthy(b)
  {
    if Truthy(a) then a else b
  }
}

/** The JavaScript value conventions the storefront's pages and slices rely on:
    optional values, and the `||` and `??` fallbacks they are read through. */
module JsValues {

  /** A value that may be `null` or `undefined`. */
  datatype Option<+T> = None | Some(value: T)

  /** `s || fallback` for an optional string: `undefined` and `""` are falsy. */
  function OrElse(s: Option<string>, fallback: string): (r: string)
    ensures s.Some? && s.value != "" ==> r == s.value
    ensures s.None? || s.value == "" ==> r == fallback
    ensures fallback != "" ==> r != ""
  {
    if s.Some? && s.value != "" then s.value else fallback
  }

  /** `n || fallback` for an optional number: `undefined` and `0` are falsy. */
  function NumOrElse(n: Option<int>, fallback: int): (r: int)
    ensures n.Some? && n.value != 0 ==> r == n.value
    ensures n.None? || n.value == 0 ==> r == fallback
  {
    if n.Some? && n.value != 0 then n.value else fallback
  }

  /** `x ?? fallback`: only `null` and `undefined` fall back; `""` and `0` are kept. */
  function Coalesce<T>(x: Option<T>, fallback: T): (r: T)
    ensures x.Some? ==> r == x.value
    ensures x.None? ==> r == fallback
  {
    match x
    case Some(v) => v
    case None => fallback
  }
}

/** The few pieces of JavaScript value semantics that the calculator relies on:
    values that may be null or undefined, thrown errors, the `||` default
    idiom, and upper-casing of a type label. Numbers are exact reals here;
    IEEE-754 rounding and NaN are not modelled. */
module JsValues {

  /** A field that may be null or undefined (None) or hold a value. */
  datatype Option<+T> = None | Some(value: T)

  /** The outcome of a call that either returns a value or throws an Error
      carrying a message. */
  datatype Result<+R, +E> = Success(value: R) | Failure(error: E)

  /** `x || d` on a number: null, undefined and 0 are falsy, so each of them
      yields the default; any other number is kept, negative ones included. */
  function OrNumber(x: Option<real>, d: real): (r: real)
    ensures x == Some(r) || r == d
    ensures r == d <== x.None? || x == Some(0.0)
    ensures r != 0.0 <== d != 0.0
  {
    if x.Some? && x.value != 0.0 then x.value else d
  }

  /** `x || d` on a string: null, undefined and "" are falsy. */
  function OrString(x: Option<string>, d: string): (r: string)
    ensures x == Some(r) || r == d
    ensures r == d <== x.None? || x == Some("")
    ensures r != "" <== d != ""
  {
    if x.Some? && x.value != "" then x.value else d
  }

  /** Upper-casing of one character, restricted to the ASCII letters. */
  function UpperChar(c: char): (u: char)
    ensures 'a' <= c <= 'z' ==> 'A' <= u <= 'Z'
    ensures !('a' <= c <= 'z') ==> u == c
  {
    if 'a' <= c <= 'z' then (c as int - 'a' as int + 'A' as int) as char else c
  }

  /** `String.prototype.toUpperCase`, restricted to the ASCII letters. */
  function ToUpper(s: string): (u: string)
    ensures |u| == |s|
    ensures forall i :: 0 <= i < |s| ==> u[i] == UpperChar(s[i])
  {
    seq(|s|, i requires 0 <= i < |s| => UpperChar(s[i]))
  }
}

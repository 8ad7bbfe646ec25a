/** JavaScript value conventions the components lean on: optional
    properties, the falsy fallback `a || b`, lower-casing of status
    strings, and the response envelopes read as `data.data || data.x || data`. */
module Js {

  /** An optional property: None stands for `undefined` or `null`. */
  datatype Option<+T> = None | Some(value: T) {
    function GetOr(default: T): T {
      match this
      case Some(v) => v
      case None => default
    }
  }

  /** A number property is truthy when it is present and not 0 (NaN is not modelled). */
  predicate TruthyNumber(x: Option<real>) {
    x.Some? && x.value != 0.0
  }

  /** A string property is truthy when it is present and not empty. */
  predicate TruthyString(x: Option<string>) {
    x.Some? && x.value != ""
  }

  /** `x || d` on a number property. */
  function OrNumber(x: Option<real>, d: real): real {
    if TruthyNumber(x) then x.value else d
  }

  /** `x || d` on a string property. */
  function OrString(x: Option<string>, d: string): string {
    if TruthyString(x) then x.value else d
  }

  /** `parseFloat(text) || 0`: `parsed` is None when the text is not a number. */
  function NumberInput(parsed: Option<real>): (r: real)
    ensures r != 0.0 <==> TruthyNumber(parsed)
    ensures r != 0.0 ==> parsed == Some(r)
  {
    OrNumber(parsed, 0.0)
  }

  function LowerChar(c: char): char {
    if 'A' <= c <= 'Z' then (c as int + 32) as char else c
  }

  /** `s.toLowerCase()` restricted to ASCII letters. */
  function ToLower(s: string): (r: string)
    ensures |r| == |s|
    ensures forall i :: 0 <= i < |s| ==> r[i] == LowerChar(s[i])
  {
    seq(|s|, i requires 0 <= i < |s| => LowerChar(s[i]))
  }

  /** A response body read as `data.data || data.<alt> || data`: the two
      optional properties, and the body itself read as the expected shape.
      Objects and arrays are truthy even when empty, so presence decides. */
  datatype Envelope<T> = Envelope(data: Option<T>, alt: Option<T>, body: T)

  /** The first present of `data.data`, `data.<alt>` and the body. */
  function Unwrap<T>(e: Envelope<T>): (r: T)
    ensures e.data.Some? ==> r == e.data.value
    ensures e.data.None? ==> r == e.alt.GetOr(e.body)
  {
    match e.data
    case Some(d) => d
    case None => e.alt.GetOr(e.body)
  }
}

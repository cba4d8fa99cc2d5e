/**
 The few JavaScript value notions the skill's logic depends on: optional
 (missing / `undefined`) values, a tagged result for the waterfall stages,
 the 32-bit integers `~~x` produces, and truthiness of optional strings.
 */
module Js {

  /** A value that may be missing (`undefined` or `null` in the source). */
  datatype Option<+T> = None | Some(value: T) {

    /** The value, or `default` when missing: the source's `x || default`
        for values that are either missing or an object. */
    function GetOr(default: T): T
    {
      match this
      case Some(v) => v
      case None => default
    }
  }

  /** The outcome of one waterfall stage: a value handed to the next stage,
      or an error that skips every remaining stage. */
  datatype Result<+T, +E> = Ok(value: T) | Err(error: E)

  /** The range of JavaScript's `~~x` (ToInt32). The model takes values that
      have already been coerced; the coercion itself is not modelled. */
  type Int32 = x: int | -0x8000_0000 <= x < 0x8000_0000

  /** JavaScript truthiness of a value that is either missing or a string:
      `undefined` and `""` are falsy, every other string is truthy. */
  predicate Truthy(s: Option<string>) {
    s.Some? && s.value != ""
  }
}

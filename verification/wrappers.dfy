/**
 The two outcome types every module of the resume pipeline builds on:
 a value that may be missing, and a computation that may throw.
 */
module Wrappers {

  /** A JavaScript value that may be `undefined` or `null`, as read through `?.`. */
  datatype Option<+T> = None | Some(value: T) {

    /** `this ?? fallback`: the present value, else the fallback. */
    function GetOr(fallback: T): T {
      if this.Some? then this.value else fallback
    }
  }

  /** The outcome of code that may throw: `Ok` with its value, or `Err` with
      the thrown error's message. */
  datatype Result<+T, +E> = Ok(value: T) | Err(error: E)
}

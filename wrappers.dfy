/**
 * Option and Result, used for the source's `null`/`undefined` values and for
 * thrown errors, and the numeric `||` fallback.
 */
module Wrappers {

  datatype Option<+T> = None | Some(value: T)

  datatype Result<+T, +E> = Ok(value: T) | Err(error: E)

  /** `x || fallback` on a number: zero is falsy. */
  function OrDefault(x: real, fallback: real): real {
    if x == 0.0 then fallback else x
  }
}

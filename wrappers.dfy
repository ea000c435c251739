/**
 * Optional values and the results of operations that can fail: the
 * registry's exceptions are returned as values instead of thrown.
 */
module Wrappers {

  /** A value that may be `undefined`. */
  datatype Option<+T> = None | Some(value: T)

  /** The outcome of a read that either yields a value or fails. */
  datatype Result<+T, +E> = Ok(value: T) | Err(error: E)

  /** The outcome of a write that either completes or fails. */
  datatype Outcome<+E> = Pass | Fail(error: E)
}

/** Absent values and error returns, in place of JavaScript's `null`/`undefined` and early returns. */
module Wrappers {

  /** A value that may be absent (`null` or `undefined` in the source). */
  datatype Option<+T> = None | Some(value: T)

  /** The outcome of a validation: the accepted value, or the first failed check. */
  datatype Result<+T, +E> = Ok(value: T) | Err(error: E)
}

/** Option and Result: absence and failure as values. */
module Wrappers {

  /** A value that may be missing: `null`, `undefined` or an absent JSON field. */
  datatype Option<+T> = None | Some(value: T)

  /** The outcome of a step that either yields a value or fails with an error. */
  datatype Result<+R, +E> = Ok(value: R) | Err(error: E)
}

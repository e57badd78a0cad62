/** Optional values and error-or-value results. */
module Wrappers {

  /** A value that may be absent (Python's `None`). */
  datatype Option<+T> = None | Some(value: T)

  /** A computed value, or the reason the computation stopped. */
  datatype Result<+T, +E> = Ok(value: T) | Err(error: E)
}

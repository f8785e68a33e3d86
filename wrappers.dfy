/** Option and Result, shared by the two components. */
module Wrappers {

  /** A value that may be absent: Python's `None` or a missing pandas cell. */
  datatype Option<+T> = None | Some(value: T)

  /** The outcome of a computation that may raise: `Err` carries the exception raised. */
  datatype Result<+T, +E> = Ok(value: T) | Err(error: E)
}

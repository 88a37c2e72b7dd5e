/** Failure-carrying values shared by the other modules. */
module Wrappers {

  /** A value that may be absent: Python's `Optional[int]`. */
  datatype Option<+T> = None | Some(value: T)

  /** A value or the error that replaced it: a Python function that returns or raises. */
  datatype Result<+T, +E> = Ok(value: T) | Err(error: E)
}

/** The `Option` and `Result` datatypes shared by every module of the model. */
module Wrappers {

  /** A value that may be absent: a missing key, a Python `None`. */
  datatype Option<+T> = None | Some(value: T)

  /** The outcome of an operation that either produces a value or raises. */
  datatype Result<+T, +E> = Ok(value: T) | Err(error: E)
}

/** Result wrappers used by every module of the model. */
module Wrappers {

  datatype Option<+T> = None | Some(value: T)

  /** The `(value, error)` pair that Go functions return, with exactly one side meaningful. */
  datatype Result<+T, +E> = Ok(value: T) | Err(error: E)

  /** A Go call that only returns an `error`. */
  datatype Outcome<+E> = Pass | Fail(error: E)
}

/** Small failure-carrying datatypes shared by every module of the model. */
module Wrappers {

  /** Python's `None` or a value. */
  datatype Option<+T> = None | Some(value: T)

  /** A value, or the exception that the Python code raises instead. */
  datatype Result<+T, +E> = Success(value: T) | Failure(error: E)

  /** A check that passes or fails with an error (a raise without a value). */
  datatype Outcome<+E> = Pass | Fail(error: E)
}

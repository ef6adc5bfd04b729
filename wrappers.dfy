/** Option, Result and Outcome datatypes used by the model. */
module Wrappers {

  /** A value that may be absent; `None` stands for PHP's `null` (or a missing array key). */
  datatype Option<+T> = None | Some(value: T)

  /** A computed value or the error that prevented it. */
  datatype Result<+T, +E> = Success(value: T) | Failure(error: E)

  /** Normal completion, or the exception a method throws. */
  datatype Outcome<+E> = Pass | Fail(error: E)
}

/** Failure-carrying datatypes shared by the model: an absent-or-present
    value and a success-or-failure outcome. */
module Wrappers {

  /** A value that may be absent, as Python's `Optional[T]`. */
  datatype Option<+T> = None | Some(value: T)

  /** The outcome of an operation that may raise: either its value or the error it raised. */
  datatype Result<+R, +E> = Success(value: R) | Failure(error: E)
}

/** Failure-carrying datatypes shared by the whole model. */
module Wrappers {

  datatype Option<+T> = None | Some(value: T)

  /** The value-or-error pair that a Go function returns, with the error not nil exactly in Failure. */
  datatype Result<+R, +E> = Success(value: R) | Failure(error: E)

  /** How a Go call ends when the code may dereference a nil result: it returns a value (with a nil
      error), or it panics, and `cause` is the error that was logged just before the dereference. */
  datatype Exit<+T, +E> = Return(value: T) | Panic(cause: E)
}

/** Option and Result, used for values that may be absent and for operations that may fail. */
module Wrappers {

  datatype Option<+T> = None | Some(value: T)

  /** The outcome of an operation that may raise: a value, or the text of the exception. */
  datatype Result<+T, +E> = Success(value: T) | Failure(error: E)
}

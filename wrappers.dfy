/** Option and Result: JavaScript's `undefined`/missing values and rejected promises. */
module Wrappers {

  datatype Option<+T> = None | Some(value: T)

  /** A settled promise: fulfilled with a value or rejected with an error. */
  datatype Result<+T, +E> = Success(value: T) | Failure(error: E)
}

/** Option and Result, the two shapes the model uses for `T | null` values and for thrown errors. */
module Wrappers {

  datatype Option<+T> = None | Some(value: T)

  /** `Failure` carries the message of the error the source code throws. */
  datatype Result<+T, +E> = Success(value: T) | Failure(error: E)
}

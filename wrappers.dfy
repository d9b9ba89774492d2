/** Tagged absence and failure values used across the model. */
module Wrappers {

  /** An optional value: `None` stands for the "no valid exit" sentinel. */
  datatype Option<+T> = None | Some(value: T)

  /** A value, or the error that stopped the computation. */
  datatype Result<+T, +E> = Success(value: T) | Failure(error: E)
}

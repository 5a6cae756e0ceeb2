/** Failure-carrying result types shared by the whole model. */
module Wrappers {

  /** An optional value: a missing row, an absent field, a `NaN` from `parseInt`. */
  datatype Option<+T> = None | Some(value: T)

  /** The outcome of an operation that may throw: a value, or the error it throws. */
  datatype Result<+R, +E> = Success(value: R) | Failure(error: E)
}

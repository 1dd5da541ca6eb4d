/** Failure-compatible result types used by the model. */
module Wrappers {

  datatype Option<+T> = None | Some(value: T)

  /** Either a value, or the error the source would raise instead of returning. */
  datatype Result<+R, +E> = Success(value: R) | Failure(error: E)
}

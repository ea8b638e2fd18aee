/** Failure-compatible wrappers used throughout the model: a missing value and a
    value-or-exception result (the exception carried as its message text). */
module Wrappers {

  datatype Option<+T> = None | Some(value: T)

  datatype Result<+R, +E> = Success(value: R) | Failure(error: E)
}

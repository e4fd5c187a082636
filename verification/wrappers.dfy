/** Failure-compatible wrappers used throughout the model: `Option` stands for
    Kotlin's nullable types, `Result` for an operation that either returns a
    value or throws. */
module Wrappers {

  /** A Kotlin `T?`: `None` is `null`. */
  datatype Option<+T> = None | Some(value: T)

  /** The outcome of an operation that may throw: `Failure` carries the exception. */
  datatype Result<+R, +E> = Success(value: R) | Failure(error: E)
}

/** Failure-compatible wrappers used throughout the model: an optional value and
    a value-or-error result (the Swift `T?` and `throws`). */
module Wrappers {

  datatype Option<+T> = None | Some(value: T)

  datatype Result<+T, +E> = Success(value: T) | Failure(error: E)
}

/** Shared wrappers: an optional value and a success-or-failure result. */
module Wrappers {

  /** A value that may be absent; `None` plays the role of pandas' NaT. */
  datatype Option<+T> = None | Some(value: T)

  /** The outcome of an operation that can raise. */
  datatype Result<+R, +E> = Success(value: R) | Failure(error: E)
}

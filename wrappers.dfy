/** An optional value and a success-or-error result. */
module Wrappers {

  /** `None` models Python's `None`; `Some(v)` a present value. */
  datatype Option<+T> = None | Some(value: T)

  /** The outcome of an operation that can fail with an error value. */
  datatype Result<+R, +E> = Success(value: R) | Failure(error: E)
}

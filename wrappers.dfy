/** Option and Result, the two shapes the store's answers take. */
module Wrappers {

  /** A value that may be absent (`undefined` / `null` in the store's answers). */
  datatype Option<+T> = None | Some(value: T)

  /** A successful value, or the error an operation throws. */
  datatype Result<+R, +E> = Success(value: R) | Failure(error: E)
}

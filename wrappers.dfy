/** Option and Result, standing for Go's `error` values and `(value, error)` pairs. */
module Wrappers {

  /** `None` is a nil error or a missing value; `Some(v)` carries it. */
  datatype Option<+T> = None | Some(value: T)

  /** The outcome of a call that returns either a value or an error. */
  datatype Result<+R, +E> = Success(value: R) | Failure(error: E)
}

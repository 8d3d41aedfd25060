/** Option and Result values for absent results and error returns. */
module Wrappers {

  /** A value that may be absent: a nil pointer, a failed lookup. */
  datatype Option<+T> = None | Some(value: T)

  /** The (value, error) pair of a Go function: exactly one of the two is meaningful. */
  datatype Result<+R, +E> = Success(value: R) | Failure(error: E)
}

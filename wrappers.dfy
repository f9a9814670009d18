/** Option and Result: the nil pointers and (value, error) pairs of the Go code. */
module Wrappers {

  /** A Go pointer or optional field: nil is None. */
  datatype Option<+T> = None | Some(value: T)

  /** A Go (value, error) pair: exactly one of the two is meaningful. */
  datatype Result<+T, +E> = Success(value: T) | Failure(error: E)
}

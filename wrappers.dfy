/** Small failure-carrying datatypes shared by the other modules. */
module Wrappers {

  /** A value that may be absent; used for Go's `error` results that may be nil. */
  datatype Option<+T> = None | Some(value: T)

  /** Either a value or an error, for Go's `(T, error)` pairs. */
  datatype Result<+T, +E> = Success(value: T) | Failure(error: E)
}

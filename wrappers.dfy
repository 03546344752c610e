/** Option and Result datatypes shared by the other modules. */
module Wrappers {

  /** A value that may be absent; models a Go pointer or slice that may be nil. */
  datatype Option<+T> = None | Some(value: T)

  /** Either a value or an error. */
  datatype Result<+R, +E> = Success(value: R) | Failure(error: E)
}

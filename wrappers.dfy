/** Option and Result, used for Go's nil pointers and for the errors the sync handlers raise. */
module Wrappers {

  /** A value that may be absent: a Go pointer that may be nil. */
  datatype Option<+T> = None | Some(value: T)

  /** The outcome of an operation that can fail. */
  datatype Result<+R, +E> = Ok(value: R) | Err(error: E)
}

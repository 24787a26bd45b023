/** Failure-compatible wrappers used for the graph's error paths. */
module Wrappers {

  /** A value that may be absent: the source's `None`. */
  datatype Option<+T> = None | Some(value: T)

  /** Either a successful value or the error the source would raise. */
  datatype Result<+R, +E> = Success(value: R) | Failure(error: E)
}

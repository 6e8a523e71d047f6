/** Failure-carrying wrappers used to model Python's `None` and raised exceptions. */
module Wrappers {

  /** A value that may be absent (Python `None`, or a call that raised). */
  datatype Option<+T> = None | Some(value: T)

  /** A value or an error (a Python call that either returns or raises). */
  datatype Result<+R, +E> = Success(value: R) | Failure(error: E)
}

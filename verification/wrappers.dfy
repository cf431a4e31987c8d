/** Optional values and success/failure results shared by the other modules. */
module Wrappers {

  /** Python's `X | None`. */
  datatype Option<+T> = None | Some(value: T)

  /** A value, or the exception that a Python call would have raised instead. */
  datatype Result<+R, +E> = Success(value: R) | Failure(error: E)
}

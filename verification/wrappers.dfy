/** Failure-carrying results used wherever the modelled code raises. */
module Wrappers {

  /** A value that may be absent, as `None` is in Python. */
  datatype Option<+T> = None | Some(value: T)

  /** Either a computed value or the error the modelled code raises instead. */
  datatype Result<+R, +E> = Success(value: R) | Failure(error: E)
}

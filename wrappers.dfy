/** Option and Result values, standing in for Python's `None` and for raised exceptions. */
module Wrappers {

  datatype Option<+T> = None | Some(value: T)

  /** `Failure(e)` is a call that raised the exception described by `e`. */
  datatype Result<+T, +E> = Success(value: T) | Failure(error: E)
}

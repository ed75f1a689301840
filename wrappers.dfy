/** Option and Result, standing in for Python's None and for a raised exception. */
module Wrappers {

  datatype Option<+T> = None | Some(value: T)

  /** Success carries the value a Python call returns; Failure carries the
      message of the exception it raises. */
  datatype Result<+R, +E> = Success(value: R) | Failure(error: E)
}

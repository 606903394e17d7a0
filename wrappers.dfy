/** Option and Result, the two failure-carrying shapes used throughout the model. */
module Wrappers {

  datatype Option<+T> = None | Some(value: T)

  /** The outcome of a Python call: the value it returns, or the exception it raises. */
  datatype Result<+T, +E> = Success(value: T) | Failure(error: E)
}

/** Option and Result, the stock failure-carrying datatypes used throughout the model. */
module Wrappers {

  datatype Option<+T> = None | Some(value: T)

  /** A value, or the exception a Python call would have raised. */
  datatype Result<+R, +E> = Success(value: R) | Failure(error: E)
}

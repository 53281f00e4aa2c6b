/** Option and Result datatypes shared by the model. */
module Wrappers {

  /** A value that may be absent; also stands for a JSON value that may be null. */
  datatype Option<+T> = None | Some(value: T)

  /** Either a value or the error that stopped the computation. */
  datatype Result<+R, +E> = Success(value: R) | Failure(error: E)
}

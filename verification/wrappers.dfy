/** Option and Result values shared by the model's modules. */
module Wrappers {

  /** A value that may be absent: NULL pointers and optional outputs. */
  datatype Option<+T> = None | Some(value: T)

  /** A value or the error that took its place. */
  datatype Result<+T, +E> = Success(value: T) | Failure(error: E)
}

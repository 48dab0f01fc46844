/** Option and error-carrying result types shared by the whole model. */
module Wrappers {

  datatype Option<+T> = None | Some(value: T)

  /** The outcome of a Go call returning `(T, error)`: a value, or the error's text. */
  datatype Result<+T> = Success(value: T) | Failure(error: string)
}

/** Option and Result, used for the optional fields of the model and for the
    programming-error failures that the source raises with `assert`. */
module Wrappers {

  datatype Option<+T> = None | Some(value: T)

  datatype Result<+R, +E> = Success(value: R) | Failure(error: E)
}

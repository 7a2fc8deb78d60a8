/** Option and Result, as used for "a value or nothing" and "a value or an error". */
module Wrappers {

  datatype Option<+T> = None | Some(value: T)

  datatype Result<+R, +E> = Success(value: R) | Failure(error: E)
}

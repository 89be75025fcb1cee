/** Option and Result, the failure-carrying values every Go `(value, error)` pair is modelled by. */
module Wrappers {

  datatype Option<+T> = None | Some(value: T)

  datatype Result<+R, +E> = Success(value: R) | Failure(error: E)
}

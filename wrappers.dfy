/** Option and Result: the failure-carrying values the rest of the model returns
    instead of throwing. */
module Wrappers {

  datatype Option<+T> = None | Some(value: T)

  /** A success payload or a failure value. */
  datatype Result<+R, +E> = Success(value: R) | Failure(error: E)
}

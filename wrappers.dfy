/** Option and Result values used for lookups that may find nothing and
    for the responder's one failure. */
module Wrappers {

  datatype Option<+T> = None | Some(value: T)

  datatype Result<+R, +E> = Success(value: R) | Failure(error: E)
}

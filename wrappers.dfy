/** Option and Result, used for the session's optional e-mail and the
    early-return guards of the checkout handler. */
module Wrappers {

  datatype Option<+T> = None | Some(value: T)

  datatype Result<+R, +E> = Success(value: R) | Failure(error: E)
}

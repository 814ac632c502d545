/** Option and Result, used for the optional coerce type and for the error
    paths (a reported diagnostic, an unreachable case) of the Colossus target. */
module Wrappers {

  datatype Option<+T> = None | Some(value: T)

  datatype Result<+R, +E> = Success(value: R) | Failure(error: E)
}

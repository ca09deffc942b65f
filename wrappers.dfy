/** Option and Result, used for the worker's "maybe absent" values and for
    errors that the TypeScript code throws. */
module Wrappers {

  datatype Option<+T> = None | Some(value: T)

  datatype Result<+R, +E> = Success(value: R) | Failure(error: E)
}

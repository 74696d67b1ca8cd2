/** Optional values and results with an error, used wherever the source returns
    `undefined` / `null` or throws an Error. */
module Wrappers {

  datatype Option<+T> = None | Some(value: T)

  datatype Result<+R, +E> = Success(value: R) | Failure(error: E)
}

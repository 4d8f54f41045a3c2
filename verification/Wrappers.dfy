/** Optional values and results, used for the nullable columns and the raised errors of the runtime. */
module Wrappers {

  datatype Option<+T> = None | Some(value: T)

  datatype Result<+T, +E> = Success(value: T) | Failure(error: E)
}

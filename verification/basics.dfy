/** Optional values and success-or-error results, used wherever the source returns
    `undefined`, `null` or sets a validation message instead of proceeding. */
module Basics {

  datatype Option<+T> = None | Some(value: T)

  datatype Result<+T, +E> = Success(value: T) | Failure(error: E)
}

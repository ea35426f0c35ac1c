/** Option and Result, used for nullable lookups and for resolvers that either
    return an entity or throw a classified error. */
module Wrappers {

  datatype Option<+T> = None | Some(value: T)

  datatype Result<+T, +E> = Success(value: T) | Failure(error: E)
}

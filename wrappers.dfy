/** Option and Result values, for absent data and for fetches that may fail. */
module Wrappers {

  datatype Option<T> = None | Some(value: T)

  /** The outcome of a request: the fetched payload, or the reason it failed. */
  datatype Result<T, E> = Success(value: T) | Failure(error: E)
}

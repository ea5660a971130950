// Optional values and error-carrying results, for Python's None and the
// HTTP errors that the endpoint raises.
module Wrappers {

  datatype Option<T> = None | Some(value: T)

  datatype Result<T, E> = Success(value: T) | Failure(error: E)
}

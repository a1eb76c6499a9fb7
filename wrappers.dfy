/** Failure-carrying wrappers used by the record store queries and the handlers. */
module Wrappers {

  /** The result of a first-match query: no row, or one. */
  datatype Option<+T> = None | Some(value: T)

  /** The outcome of a handler: its response, or the HTTP error it raises. */
  datatype Result<+T, +E> = Ok(value: T) | Err(error: E)
}

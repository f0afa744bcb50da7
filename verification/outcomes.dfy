/** Optional values and step results threaded through the request handlers. */
module Outcomes {

  datatype Option<T> = None | Some(value: T)

  /** A handler step either succeeds with a value or throws; a thrown error
      ends the request in its catch branch. */
  datatype Result<T, E> = Success(value: T) | Failure(error: E)

  /** The HTTP status a handler answers with: its catch branch answers 500. */
  function HttpStatus<T, E>(r: Result<T, E>): int
  {
    if r.Success? then 200 else 500
  }
}

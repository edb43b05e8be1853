/** Optional values and results with an error, shared by the backend and frontend models. */
module Wrappers {

  /** A value that may be absent: Python's None, TypeScript's null. */
  datatype Option<+T> = None | Some(value: T)

  /** The outcome of a step that may raise: its value, or the message of the exception. */
  datatype Result<+R> = Success(value: R) | Failure(message: string)
}

/** Failure-carrying wrappers shared by the parser, the capture loop and the
    command-line check. */
module Wrappers {

  /** A value that may be missing; `None` plays the role of Python's `None`
      return from a routine that swallowed an exception. */
  datatype Option<+T> = None | Some(value: T)

  /** A value or the reason it could not be produced. */
  datatype Result<+T, +E> = Success(value: T) | Failure(error: E)
}

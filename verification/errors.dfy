/** Failure values of the bot. KeyNotFoundError and NotAllowedError are the two custom
    exceptions of extensions/core/errors (that file is not part of this model beyond the
    names); AssertionError is what a failing `assert False, msg` raises. */
module Errors {

  datatype Option<+T> = None | Some(value: T)

  datatype Error =
    | KeyNotFoundError(message: string)
    | NotAllowedError(message: string)
    | AssertionError(message: string)

  /** An operation that either returns a value or raises one of the errors above. */
  datatype Result<+T> = Ok(value: T) | Err(error: Error)
}

/**
 * The exceptions thrown by the renderer and by the i18n builder, as values.
 * A call that throws `new Error(message)` returns `Fail(Error(message))`
 * (or `Err(Error(message))` when it would otherwise produce a value).
 */
module Exceptions {

  /** A JavaScript `Error` object; only its message is observable here. */
  datatype Error = Error(message: string)

  /** The outcome of a call whose normal result is `void`. */
  datatype Outcome = Pass | Fail(error: Error)

  /** The outcome of a call that returns a value of type `T` or throws. */
  datatype Result<T> = Ok(value: T) | Err(error: Error)
}

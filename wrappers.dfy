/** The optional-value and success-or-error types shared by the gateway and the component. */
module Wrappers {

  /** A value that may be absent: JavaScript's `undefined`/`null` versus a value. */
  datatype Option<+T> = None | Some(value: T)

  /** The settled result of a one-shot observable: one `next` value, or one `error`. */
  datatype Result<+T, +E> = Success(value: T) | Failure(error: E)
}

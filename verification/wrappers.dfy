/** Wrappers shared by the model: an optional value and a value-or-error
    result. */
module Wrappers {

  /** A value that may be absent (a JSON key that may be missing). */
  datatype Option<+T> = None | Some(value: T)

  /** The outcome of a step that may raise: its value, or the message the
      raised exception carries. */
  datatype Result<+R, +E> = Success(value: R) | Failure(error: E)
}

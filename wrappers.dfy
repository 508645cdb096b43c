/** Optional values, results with an error, and the answer of the text generator, shared
    by every module of the model. */
module Wrappers {

  /** A value that may be absent: Python's `None` or a missing dictionary key. */
  datatype Option<+T> = None | Some(value: T) {
    function GetOr(default: T): T {
      match this
      case Some(v) => v
      case None => default
    }
  }

  /** The outcome of a call that may raise: its value, or the message of the error. */
  datatype Result<+R, +E> = Ok(value: R) | Err(error: E)

  /** The text generator's answer to one prompt: its text, no reply at all (`None`), a
      reply without a `text` attribute, or the exception the call raised, with its message
      and whether it is a `ValueError`. */
  datatype Generation =
    | Generated(text: string)
    | NoReply
    | NoText
    | GenerationFailed(message: string, valueError: bool)
}

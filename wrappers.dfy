/** Wrappers shared by the model: an optional value (a
    nullable reference in the original) and the outcome of a call that may
    throw (the exception's message is kept). */
module Wrappers {

  datatype Option<+T> = None | Some(value: T) {
    function GetOr(default: T): T {
      match this
      case Some(v) => v
      case None => default
    }
  }

  /** `Thrown(message)` stands for an exception whose `Message` is `message`. */
  datatype Result<+T> = Ok(value: T) | Thrown(message: string)
}

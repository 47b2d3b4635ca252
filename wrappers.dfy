/** Result and Option values used in place of the source's exceptions and nullable fields. */
module Wrappers {

  datatype Option<+T> = None | Some(value: T)

  /** The outcome of a call that may throw: its value, or the thrown error's message. */
  datatype Result<+T> = Ok(value: T) | Fail(reason: string)
}

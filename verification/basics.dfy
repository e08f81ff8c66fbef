/** Small wrappers shared by every component of the model. */
module Basics {

  /** A value that may be absent: JavaScript's null/undefined, Python's None. */
  datatype Option<T> = None | Some(value: T) {
    function GetOr(default: T): T {
      if Some? then value else default
    }
  }

  /** The outcome of a step that either produces a value or raises with a message. */
  datatype Result<T> = Ok(value: T) | Err(message: string)
}

/** The two failure-carrying shapes used throughout the model: JavaScript's
    `T | null` (and `T | undefined`) becomes Option, a function that either
    returns or throws an Error with a message becomes Result. */
module Wrappers {

  datatype Option<+T> = None | Some(value: T) {
    function GetOr(default: T): T {
      match this
      case Some(v) => v
      case None => default
    }

    /** JavaScript's `a ?? b` for two nullable values. */
    function OrElse(other: Option<T>): Option<T> {
      if Some? then this else other
    }
  }

  /** `Ok(v)` is a returned value, `Err(message)` a thrown `Error(message)`. */
  datatype Result<+T> = Ok(value: T) | Err(error: string)
}

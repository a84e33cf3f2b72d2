/** Option and Result values standing for JavaScript's `undefined`/`null` and for thrown errors. */
module Wrappers {

  datatype Option<+T> = None | Some(value: T) {
    function GetOr(default: T): T {
      match this
      case Some(v) => v
      case None => default
    }
  }

  /** `Err(message)` is an `Error` thrown with that message; `Ok(v)` is a normal return. */
  datatype Result<+T> = Ok(value: T) | Err(message: string)
}

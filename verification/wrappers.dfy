/** Option and Result, the two failure-carrying shapes the model uses in place of
    JavaScript's `undefined`/`null` and thrown errors. */
module Wrappers {

  datatype Option<+T> = None | Some(value: T) {

    /** The value, or `default` when absent (JavaScript's `x ?? default`). */
    function GetOr(default: T): T {
      match this
      case Some(v) => v
      case None => default
    }
  }

  /** `Ok(value)` for a returned value, `Err(message)` for a thrown `Error` whose
      message is `message`. */
  datatype Result<+T> = Ok(value: T) | Err(message: string)
}

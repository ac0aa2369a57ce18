/** Option and Result values for JavaScript's `null`/`undefined` and thrown errors. */
module Wrappers {

  datatype Option<+T> = None | Some(value: T) {
    function GetOr(default: T): T {
      match this
      case Some(v) => v
      case None => default
    }
  }

  /** A thrown `Error` is modelled as `Failure(message)`. */
  datatype Result<+T> = Success(value: T) | Failure(error: string)
}

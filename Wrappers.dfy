/** Failure-carrying values shared by the codec and the service client. */
module Wrappers {

  /** An optional value; in the JavaScript models `None` also stands for `undefined`/`null` returns. */
  datatype Option<+T> = None | Some(value: T) {
    function GetOr(default: T): T {
      match this
      case Some(v) => v
      case None => default
    }
  }

  /** The outcome of an operation that may throw: `Err` carries what was thrown. */
  datatype Result<+R, +E> = Ok(value: R) | Err(error: E)
}

/** Option and Result, the two failure-carrying shapes used throughout the model:
    an absent JavaScript/Python value is `None`, a failed HTTP call is `Err`. */
module Wrappers {

  datatype Option<+T> = None | Some(value: T) {
    function GetOr(default: T): T {
      match this
      case Some(v) => v
      case None => default
    }
  }

  datatype Result<+T, +E> = Ok(value: T) | Err(error: E)

  /** An HTTP failure as seen by the client: the response status code. */
  datatype HttpError = HttpError(status: int)
}

/** Values shared by every part of the model: optional values, thrown errors
    and the outcome of a step that may throw. */
module Common {

  datatype Option<T> = None | Some(value: T) {
    function GetOr(default: T): T {
      match this
      case Some(v) => v
      case None => default
    }
  }

  /** A JavaScript error as the handlers see it: the HTTP-like `status` the
      model client attaches (absent for other errors) and its `message`. */
  datatype Error = Error(status: Option<int>, message: string)

  /** The outcome of an awaited call: its value, or the error it threw. */
  datatype Result<T> = Ok(value: T) | Err(error: Error)
}

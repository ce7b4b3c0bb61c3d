/** Shared wrappers: optional values and the reply a route handler produces. */
module Base {

  datatype Option<+T> = None | Some(value: T) {
    function GetOr(default: T): T {
      match this
      case Some(v) => v
      case None => default
    }
  }

  /** A route handler's reply: a body with its HTTP status, or an error status with its message. */
  datatype Http<+T> = Ok(status: nat, value: T) | Err(status: nat, message: string)
}

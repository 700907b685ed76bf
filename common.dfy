/** Values shared by every component: optional values, the outcome of an
    operation that may throw, and bytes. */
module Common {

  /** A JavaScript value that may be `undefined`. */
  datatype Option<+T> = None | Some(value: T) {

    /** The value, or `default` when undefined (a destructuring default). */
    function GetOr(default: T): T {
      match this
      case Some(v) => v
      case None => default
    }
  }

  /** The outcome of an operation that may throw: its value, or the message of
      the `Error` it throws. Answers of the external browser driver have the same
      shape. */
  datatype Result<+T> = Ok(value: T) | Err(message: string)

  type byte = x: int | 0 <= x < 256
}

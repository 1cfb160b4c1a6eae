/** Small shared definitions: an optional value, standing in for JavaScript's `undefined`/`null`. */
module Common {

  /** `None` is a missing (undefined or null) value, `Some(v)` a present one. */
  datatype Option<+T> = None | Some(value: T) {

    /** The value, or the fallback when missing: JavaScript's `x ?? fallback`. */
    function GetOr(fallback: T): T {
      match this
      case Some(v) => v
      case None => fallback
    }
  }

  /** The outcome of an operation that can throw: a value, or the message of the error. */
  datatype Result<+T> = Ok(value: T) | Failure(error: string)
}

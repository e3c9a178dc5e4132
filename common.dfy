/** Failure-carrying values shared by the services and the pages. */
module Common {

  /** A value that may be absent: JavaScript's `null` or `undefined`, or a key missing from a record. */
  datatype Option<+T> = None | Some(value: T) {
    /** The value, or `default` when absent (the `??` and spread-merge fallback). */
    function GetOr(default: T): T {
      match this
      case Some(v) => v
      case None => default
    }
  }

  /** The outcome of a service call: a resolved record or a rejected promise carrying an error message. */
  datatype Result<+T> = Ok(value: T) | Err(message: string)
}

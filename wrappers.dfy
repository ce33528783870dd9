// Small failure-carrying datatypes shared by the backend and frontend models.
module Wrappers {

  /** A value that may be missing: Python's Optional / None, TypeScript's `?` and `null`. */
  datatype Option<T> = None | Some(value: T) {
    /** The value, or `default` when it is missing. */
    function GetOr(default: T): T {
      match this
      case Some(v) => v
      case None => default
    }
  }

  /** The outcome of a route: a value, or the error the route raises. */
  datatype Result<T, E> = Ok(value: T) | Err(error: E)
}

/** Optional values (TypeScript's `T | null | undefined`) and results with an error message
    (a thrown `Error`). */
module Wrappers {

  datatype Option<+T> = None | Some(value: T) {
    /** The `??` operator: this value if present, otherwise `default`. */
    function GetOr(default: T): T {
      match this
      case Some(v) => v
      case None => default
    }
  }

  /** The outcome of an operation that either returns a value or throws `new Error(message)`. */
  datatype Result<+T> = Ok(value: T) | Err(message: string)
}

/** Optional values and results, used wherever the source reads a field that
    may be null/undefined or an operation that may throw. */
module Wrappers {

  datatype Option<+T> = None | Some(value: T) {
    /** The value, or `default` when absent (the `??` of the source). */
    function GetOr(default: T): T {
      match this
      case Some(v) => v
      case None => default
    }
  }

  /** A completed operation (`Ok`) or a thrown error (`Err`, with its message). */
  datatype Result<+T> = Ok(value: T) | Err(error: string)
}

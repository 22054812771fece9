/** Small failure-carrying datatypes shared by the whole model. */
module Wrappers {

  /** A value that may be missing (JavaScript's `null` / `undefined`). */
  datatype Option<+T> = None | Some(value: T) {
    function GetOr(default: T): T {
      match this
      case Some(v) => v
      case None => default
    }
  }

  /** The outcome of an operation that may throw: the thrown value is `error`. */
  datatype Result<+R, +E> = Ok(value: R) | Err(error: E)

  /**
   * What one browser-storage key holds: nothing, text that does not parse
   * as the expected JSON, or a decoded value.
   */
  datatype Slot<+T> = Absent | Corrupt | Holds(value: T)
}

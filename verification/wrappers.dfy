/** Optional values and error-or-value results shared by every module. */
module Wrappers {

  /** A value that may be absent; `None` plays Python's `None` or a raised exception. */
  datatype Option<+T> = None | Some(value: T) {

    /** The value if present, otherwise `default` (Python's `x or default` on an optional). */
    function GetOr(default: T): T {
      match this
      case Some(v) => v
      case None => default
    }
  }

  /** Either a value or the message of the exception the source raises instead. */
  datatype Result<+T> = Ok(value: T) | Err(message: string)
}

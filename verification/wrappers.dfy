/** Failure-compatible wrappers shared by every module of the model.
    `Option` stands for Python's `None` (and, where a module says so, for a
    pandas NaN); `Result` stands for a value or a raised exception. */
module Wrappers {

  /** A value that may be absent. */
  datatype Option<+T> = None | Some(value: T) {

    /** The value, or `default` when absent (Python's `x if x is not None else default`). */
    function GetOr(default: T): T {
      match this
      case Some(v) => v
      case None => default
    }
  }

  /** A value, or the name of the exception that was raised instead. */
  datatype Result<+T> = Ok(value: T) | Err(error: string) {

    /** Drops the exception text: what an `except: return None` handler leaves. */
    function ToOption(): Option<T> {
      match this
      case Ok(v) => Some(v)
      case Err(_) => None
    }
  }
}

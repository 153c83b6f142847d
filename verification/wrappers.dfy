/** Option and Result values used in place of Python's `None` and raised exceptions. */
module Wrappers {

  /** `None` stands for Python's `None`; `Some(v)` for a present value. */
  datatype Option<+T> = None | Some(value: T) {

    /** Returns the wrapped value, or `default` when there is none. */
    function GetOr(default: T): T {
      match this
      case Some(v) => v
      case None => default
    }
  }

  /** `Failure(e)` stands for an exception the Python code raises (or a `sys.exit`). */
  datatype Result<+R, +E> = Success(value: R) | Failure(error: E)
}

/** Small failure-carrying datatypes shared by the whole model. */
module Wrappers {

  datatype Option<+T> = None | Some(value: T) {
    /** The value, or `default` when absent (Python's `dict.get(key, default)`). */
    function GetOr(default: T): T {
      match this
      case Some(v) => v
      case None => default
    }
  }

  /**
   * The result of a Python expression that either returns a value or raises.
   * `exception` names the Python exception class (KeyError, TypeError, ...).
   */
  datatype Raising<+T> = Returned(value: T) | Raised(exception: string)
}

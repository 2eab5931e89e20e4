/** An optional value and a result that either carries a value or an error. */
module Wrappers {

  /** A value that may be absent, as with a missing key or a `None` argument. */
  datatype Option<+T> = None | Some(value: T) {

    /** The carried value, or `default` when there is none. */
    function GetOr(default: T): T
    {
      match this
      case Some(v) => v
      case None => default
    }
  }

  /** The outcome of a step that may fail. */
  datatype Result<+R, +E> = Success(value: R) | Failure(error: E)
}

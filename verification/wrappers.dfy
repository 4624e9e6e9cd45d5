/** Failure-compatible wrappers shared by every module of the model.
    `Option.None` also stands for JavaScript's `undefined`. */
module Wrappers {

  datatype Option<+T> = None | Some(value: T) {

    /** The JavaScript `a ?? b` / "value or default" reading of an optional value. */
    function GetOr(default: T): T {
      match this
      case Some(v) => v
      case None => default
    }
  }

  /** One key of a `Partial<...>` object: left out, or present with a value
      that may itself be `undefined`. */
  datatype Slot<+T> = Absent | Present(value: Option<T>) {

    /** Object spread of this key over an earlier value: a present key wins,
        even when it holds `undefined`. */
    function Over(before: Option<T>): Option<T> {
      match this
      case Present(v) => v
      case Absent => before
    }
  }

  /** A call that either returns a value or throws. */
  datatype Result<+R, +E> = Success(value: R) | Failure(error: E)
}

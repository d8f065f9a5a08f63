/** Swift's `Optional` and `Result`, as the rest of the model uses them. */
module Wrappers {

  /** `T?` in Swift. */
  datatype Option<+T> = None | Some(value: T) {

    /** Swift's `x ?? default` where the default is not optional. */
    function GetOr(default: T): T {
      match this
      case Some(v) => v
      case None => default
    }

    /** Swift's `x ?? y` where `y` is itself optional. */
    function OrElse(other: Option<T>): Option<T> {
      if Some? then this else other
    }
  }

  /** `Result<Success, Failure>` in Swift. */
  datatype Result<+R, +E> = Success(value: R) | Failure(error: E)
}

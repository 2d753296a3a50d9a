/** Option and two-armed Outcome, the shapes every model object and client call uses. */
module Wrappers {

  /** A value that may be absent: a field with its "has been set" flag, or a node that may be null. */
  datatype Option<+T> = None | Some(value: T) {

    /** The value when present, otherwise `default`. */
    function GetOr(default: T): T {
      match this
      case Some(v) => v
      case None => default
    }
  }

  /** Exactly one of a result and an error, never both and never neither. */
  datatype Outcome<+R, +E> = Success(result: R) | Failure(error: E) {

    predicate IsSuccess() {
      Success?
    }
  }
}

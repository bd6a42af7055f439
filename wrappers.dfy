/** Small failure-carrying datatypes shared by every module. */
module Wrappers {

  /** A value that may be absent: Python's None, a missing dictionary key, SQL NULL. */
  datatype Option<+T> = None | Some(value: T) {
    predicate IsFailure() {
      None?
    }

    function PropagateFailure<U>(): Option<U>
      requires None?
    {
      None
    }

    function Extract(): T
      requires Some?
    {
      value
    }

    function GetOr(default: T): T {
      match this
      case Some(v) => v
      case None => default
    }
  }

  /** The outcome of a Python call that either returns a value or raises an exception
      that its caller does not catch. */
  datatype Try<+T> = Returned(value: T) | Raised
}

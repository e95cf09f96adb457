/** Failure-compatible wrappers shared by the other modules. */
module Wrappers {

  /** A value that may be missing; `None` stands for a Python call that raised or returned None. */
  datatype Option<+T> = None | Some(value: T) {
    predicate IsFailure() { None? }

    function PropagateFailure<U>(): Option<U>
      requires None?
    {
      None
    }

    function Extract(): T
      requires Some?
    {
      value
    }
  }
}

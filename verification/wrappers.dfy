/** Failure-compatible wrappers shared by every module of the model:
    `Option` stands for a Python value that may be `None` or a key that may be
    absent from a dict, `Result` for a call that may raise. */
module Wrappers {

  datatype Option<+T> = None | Some(value: T) {

    /** The value, or `default` when there is none: Python's `d.get(k, default)`. */
    function GetOr(default: T): T {
      match this
      case Some(v) => v
      case None => default
    }
  }

  datatype Result<+T, +E> = Ok(value: T) | Err(error: E) {

    predicate IsFailure() {
      Err?
    }

    function PropagateFailure<U>(): Result<U, E>
      requires Err?
    {
      Err(error)
    }

    function Extract(): T
      requires Ok?
    {
      value
    }
  }

  /** Last-write-wins for one field of a partial update: a field the update
      carries replaces the prior value, an absent one leaves it alone. */
  function Overwrite<T>(prior: Option<T>, update: Option<T>): (r: Option<T>)
    ensures update.Some? ==> r == update
    ensures update.None? ==> r == prior
  {
    if update.Some? then update else prior
  }
}

/** Failure-compatible wrappers: a Python call either returns a value or raises. */
module Results {

  datatype Option<+T> = None | Some(value: T)

  /** `Ok` is a normal return, `Err` an exception that propagates to the caller. */
  datatype Result<+T, +E> = Ok(value: T) | Err(error: E) {

    predicate IsFailure() {
      Err?
    }

    function PropagateFailure<U>(): Result<U, E>
      requires Err?
    {
      Err(error)
    }

    function Extract(): T
      requires Ok?
    {
      value
    }
  }
}

/** Failure-compatible result types standing for Go's `(T, error)` pairs,
    bare `error` returns and panics. */
module Results {

  /** A value or an error message. */
  datatype Result<+T> = Ok(value: T) | Err(error: string) {

    predicate IsFailure() {
      Err?
    }

    function PropagateFailure<U>(): Result<U>
      requires Err?
    {
      Err(error)
    }

    function Extract(): T
      requires Ok?
    {
      value
    }
  }

  /** Success, or an error message, with nothing else returned. */
  datatype Outcome = Pass | Fail(error: string) {

    predicate IsFailure() {
      Fail?
    }

    function PropagateFailure(): Outcome
      requires Fail?
    {
      this
    }
  }

  datatype Option<+T> = None | Some(value: T)
}

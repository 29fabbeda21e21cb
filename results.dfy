/** Failure-carrying datatypes used in place of the PHP exceptions thrown by the API layer. */
module Results {

  datatype Option<+T> = None | Some(value: T)

  /** The value of a computation that either returns a value or throws an exception. */
  datatype Result<+T, +E> = Ok(value: T) | Err(error: E) {
    predicate IsFailure() { Err? }

    function PropagateFailure<U>(): Result<U, E>
      requires Err?
    {
      Err(error)
    }

    function Extract(): T
      requires Ok?
    {
      value
    }

    /** Whether the computation returned or threw, forgetting the value. */
    function Status(): Outcome<E> {
      if Ok? then Pass else Fail(error)
    }
  }

  /** The outcome of a check that either passes or throws an exception. */
  datatype Outcome<+E> = Pass | Fail(error: E)
}

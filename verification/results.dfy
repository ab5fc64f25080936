/** Failure-compatible wrappers shared by the parser, the evaluator and the executor.
    `Result` stands in for the C++ exceptions: every error is a value, and `:-`
    propagates the first one to the caller. */
module Results {

  /** An optional value: the result of a variable lookup or of an assignment that may
      find no binding. */
  datatype Option<+T> = None | Some(value: T)

  /** Either a value or the error that stopped the computation. */
  datatype Result<+T, +E> = Ok(value: T) | Err(error: E) {

    predicate IsFailure() {
      Err?
    }

    function PropagateFailure<U>(): Result<U, E>
      requires Err?
    {
      Err(error)
    }

    function Extract(): T
      requires Ok?
    {
      value
    }
  }
}

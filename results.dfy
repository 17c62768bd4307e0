/** Failure-compatible result types standing in for Java's checked and unchecked exceptions. */
module Results {

  /** The value a Java method returns, or the exception it throws. */
  datatype Result<+T, +E> = Ok(value: T) | Err(error: E) {
    predicate IsFailure() {
      Err?
    }

    function PropagateFailure<U>(): Result<U, E>
      requires Err?
    {
      Err(error)
    }

    function Extract(): T
      requires Ok?
    {
      value
    }
  }

  /** The outcome of a Java method returning void: normal completion, or the exception it throws. */
  datatype Outcome<+E> = Pass | Fail(error: E)
}

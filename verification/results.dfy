/** Failure-compatible wrappers shared by the model: `Option` for values the
    program may leave absent, `Result` for operations that raise. */
module Results {

  datatype Option<T> = None | Some(value: T)

  /** Either a value or the error the program would have raised instead. */
  datatype Result<T, E> = Success(value: T) | Failure(error: E) {

    predicate IsFailure() {
      Failure?
    }

    function PropagateFailure<U>(): Result<U, E>
      requires Failure?
    {
      Failure(error)
    }

    function Extract(): T
      requires Success?
    {
      value
    }
  }
}

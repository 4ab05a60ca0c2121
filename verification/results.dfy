/** Failure-carrying values shared by every module of the model.
    A Go `error` is represented by its text, since the source only ever
    formats, compares or stores errors as strings. */
module Results {

  /** A value that may be absent (a Go nil pointer, function or map miss). */
  datatype Option<+T> = None | Some(value: T)

  /** A Go `(T, error)` pair: either a value or the text of the error. */
  datatype Result<+T> = Ok(value: T) | Err(msg: string) {

    predicate IsFailure() {
      Err?
    }

    function PropagateFailure<U>(): Result<U>
      requires Err?
    {
      Err(msg)
    }

    function Extract(): T
      requires Ok?
    {
      value
    }
  }
}

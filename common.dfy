/** Option and Result values shared by the whole model. */
module Common {

  /** A value that may be absent: a Go `*string` field is `None` when the pointer is nil. */
  datatype Option<+T> = None | Some(value: T)

  /** The outcome of a step that can fail with an error, usable with `:-`. */
  datatype Result<+T> = Ok(value: T) | Err(message: string) {

    predicate IsFailure() {
      Err?
    }

    function PropagateFailure<U>(): Result<U>
      requires Err?
    {
      Err(message)
    }

    function Extract(): T
      requires Ok?
    {
      value
    }
  }
}

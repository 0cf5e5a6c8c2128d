/** Results of operations that the gateway may refuse or that may find nothing. */
module Wrappers {

  datatype Option<+T> = None | Some(value: T)

  /** The gateway's `(value, error)` pairs; the error text is kept only where a caller tells errors apart. */
  datatype Result<+T> = Ok(value: T) | Err(reason: string)
  {
    predicate IsFailure() {
      Err?
    }

    function PropagateFailure<U>(): Result<U>
      requires Err?
    {
      Err(reason)
    }

    function Extract(): T
      requires Ok?
    {
      value
    }
  }
}

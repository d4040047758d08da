/** Option and Result values for the operations whose Python counterparts raise. */
module Outcomes {

  datatype Option<T> = None | Some(value: T)

  /** Ok, or the exception Python would raise, named by its message. */
  datatype Result<T> = Ok(value: T) | Err(error: string) {

    predicate IsFailure() {
      Err?
    }

    function PropagateFailure<U>(): Result<U>
      requires Err?
    {
      Err(error)
    }

    function Extract(): T
      requires Ok?
    {
      value
    }
  }
}

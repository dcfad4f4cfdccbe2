/** Result and Option values standing for the source's exceptions and None. */
module Wrappers {

  datatype Option<T> = None | Some(value: T)

  /** Ok(value), or Err(msg) where the source raises an exception. */
  datatype Result<T> = Ok(value: T) | Err(msg: string) {

    predicate IsFailure() {
      Err?
    }

    function PropagateFailure<U>(): Result<U>
      requires Err?
    {
      Err(msg)
    }

    function Extract(): T
      requires Ok?
    {
      value
    }
  }
}

/** Success-or-failure values standing for the exceptions and optional values of the source. */
module Results {

  datatype Option<+T> = None | Some(value: T)

  /** `Err` carries the message of the exception that the source throws. */
  datatype Result<+T> = Ok(value: T) | Err(message: string) {
    predicate IsFailure() { Err? }

    function PropagateFailure<U>(): Result<U>
      requires Err?
    {
      Err(message)
    }

    function Extract(): T
      requires Ok?
    {
      value
    }
  }
}

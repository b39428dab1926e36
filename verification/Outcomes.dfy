/** Results shared by the modules of this project. */
module Outcomes {
  datatype Option<+T> = None | Some(value: T) {
    predicate IsFailure() {
      None?
    }

    function PropagateFailure<U>(): Option<U>
      requires None?
    {
      None
    }

    function Extract(): T
      requires Some?
    {
      value
    }
  }

  /** A value, or the error code that the program reports. */
  datatype Result<+T> = Ok(value: T) | Err(code: string)
}

/** Optional values and the exceptions a .NET member can throw, as values. */
module Wrappers {

  datatype Option<+T> = None | Some(value: T)

  /** The .NET exception types thrown by the modelled code. */
  datatype Exception =
    | ArgumentNull
    | Argument
    | ArgumentOutOfRange
    | IndexOutOfRange
    | InvalidOperation
    | NotSupported
    | NullReference
    | Format
    | Overflow
    | DivideByZero
    | KeyNotFound

  /** A member's outcome: it returns a value or throws an exception. */
  datatype Result<+T> = Ok(value: T) | Throws(error: Exception)
  {
    predicate IsFailure() { Throws? }

    function PropagateFailure<U>(): Result<U>
      requires Throws?
    {
      Throws(error)
    }

    function Extract(): T
      requires Ok?
    {
      value
    }
  }
}

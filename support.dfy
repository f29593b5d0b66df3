/** Outcome and error values shared by the schema entities.
    Every exception the setters throw becomes an `Error`; a setter that returns
    `$this` normally becomes `Pass`. */
module Support {

  datatype Option<+T> = None | Some(value: T)

  /** The PHP exception class a failing check throws. */
  datatype ExceptionClass = InvalidArgument | Runtime | UnexpectedValue

  /** Which check rejected the call. */
  datatype Error =
    | InvalidColumnName
    | InvalidReferencesName
    | InvalidTableName
    | UnsupportedType(columnType: string)
    | LengthNotSupported(columnType: string)
    | FractionalNotSupported(columnType: string)
    | DefaultValueNotSupported(columnType: string)
    | DefaultValueOnAutoIncrement
    | AutoIncrementNotSupported(columnType: string)
    | UnsignedNotSupported(columnType: string)
    | SignedAutoIncrement
    | UnsupportedOnDelete
    | MissingColumn(column: string)
  {
    /** The class of the exception thrown for this error. */
    function Class(): ExceptionClass
    {
      match this
      case DefaultValueOnAutoIncrement | SignedAutoIncrement | MissingColumn(_) => Runtime
      case UnsupportedOnDelete => UnexpectedValue
      case _ => InvalidArgument
    }
  }

  /** The result of a setter: it returned normally, or it threw. */
  datatype Outcome = Pass | Fail(error: Error) {
    predicate IsFailure() { Fail? }
    function PropagateFailure<U>(): Result<U>
      requires Fail?
    {
      Failure(error)
    }
  }

  /** The result of a construction: the new value, or the exception it threw. */
  datatype Result<+T> = Success(value: T) | Failure(error: Error) {
    predicate IsFailure() { Failure? }
    function PropagateFailure<U>(): Result<U>
      requires Failure?
    {
      Failure(error)
    }
    function Extract(): T
      requires Success?
    {
      value
    }
  }
}

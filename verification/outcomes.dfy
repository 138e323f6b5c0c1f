/** Outcomes of operations that may throw one of the .NET exceptions the
    compiler backend raises. A thrown exception is modelled as a Failure
    value carrying the exception kind. */
module Outcomes {

  /** The exception kinds thrown by the modelled code. */
  datatype Exception =
    | ArgumentNullException(paramName: string)
    | ArgumentException(message: string)
    | NotSupportedException

  datatype Result<+T> = Success(value: T) | Failure(error: Exception) {
    predicate IsFailure() {
      Failure?
    }

    function PropagateFailure<U>(): Result<U>
      requires Failure?
    {
      Failure(error)
    }

    function Extract(): T
      requires Success?
    {
      value
    }
  }

  datatype Option<+T> = None | Some(value: T)
}

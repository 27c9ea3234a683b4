// Shared option and result types used by every module of the model.

module Wrappers {

  datatype Option<T> = None | Some(value: T)
  {
    predicate IsSome() { this.Some? }

    function GetOr(default: T): T
    {
      match this
      case None => default
      case Some(v) => v
    }
  }

  /** The Python exceptions the modelled code raises or catches. */
  datatype PyError =
    | ValueError(message: string)
      /** pydantic's ValidationError, a subclass of ValueError. */
    | ValidationError
    | AttributeError
    | TypeError
    | IndexError
    | ZeroDivisionError
    | KeyError(key: string)
    | RuntimeError(message: string)
    | OracleFailure(message: string)

  /** `except ValueError` also catches pydantic's ValidationError. */
  predicate IsValueError(e: PyError)
  {
    e.ValueError? || e.ValidationError?
  }

  datatype Result<T> = Ok(value: T) | Err(error: PyError)
  {
    predicate IsOk() { this.Ok? }

    predicate IsFailure() { this.Err? }

    function PropagateFailure<U>(): Result<U>
      requires this.Err?
    {
      Err(this.error)
    }

    function Extract(): T
      requires this.Ok?
    {
      this.value
    }
  }
}

// Optional values, results and the exceptions of Spine Database API
// (spinedb_api/exception.py), plus the Python built-in errors the core lets
// escape (KeyError, IndexError, TypeError, ...).

module Errors {

  datatype Option<T> = None | Some(value: T)
  {
    predicate IsSome() { Some? }

    function GetOr(default: T): (r: T)
    {
      if Some? then value else default
    }
  }

  /** The exceptions raised by the modelled code. */
  datatype Error =
    | SpineDBAPIError(msg: string)
      // SpineIntegrityError carries the id of the clashing item when there is one
    | SpineIntegrityError(msg: string, id: Option<int>)
    | ParameterValueFormatError(msg: string)
    | InvalidMappingComponent(msg: string)
      // Python built-ins that the modelled code does not catch
    | KeyError(key: string)
    | IndexError(msg: string)
    | TypeError(msg: string)
    | ValueError(msg: string)
    | RuntimeError(msg: string)
    | AttributeError(msg: string)
  {
    /** The message the exception carries. */
    function Message(): string
    {
      match this
      case SpineDBAPIError(m) => m
      case SpineIntegrityError(m, _) => m
      case ParameterValueFormatError(m) => m
      case InvalidMappingComponent(m) => m
      case KeyError(k) => k
      case IndexError(m) => m
      case TypeError(m) => m
      case ValueError(m) => m
      case RuntimeError(m) => m
      case AttributeError(m) => m
    }
  }

  datatype Result<T> = Ok(value: T) | Err(error: Error)
  {
    predicate IsFailure() { Err? }

    function PropagateFailure<U>(): Result<U>
      requires Err?
    {
      Err(error)
    }

    function Extract(): T
      requires Ok?
    {
      value
    }
  }

  /** An integrity error without an id. */
  function Integrity(msg: string): (e: Error)
    ensures e.SpineIntegrityError? && e.id == None && e.msg == msg
  {
    SpineIntegrityError(msg, None)
  }
}

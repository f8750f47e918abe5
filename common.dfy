/** Shared vocabulary: optional values, results, and the Python exceptions the
    report builder and the statistics helpers raise. */
module Common {

  datatype Option<+T> = None | Some(value: T) {
    function GetOr(fallback: T): T {
      match this
      case Some(v) => v
      case None => fallback
    }
  }

  /** The exception a failing operation raises, with the message or the
      offending identifier it carries. */
  datatype Exception =
    | KeyError(msg: string)
    | ValueError(msg: string)
    | TypeError(msg: string)
    | AttributeError(msg: string)
    | ImportError(msg: string)
    | FileNotFoundError(msg: string)
    | IndexError(msg: string)
    | UnboundLocalError(msg: string)

  /** A value, or the exception that aborted the computation. */
  datatype Result<+T> = Ok(value: T) | Err(error: Exception) {
    predicate IsFailure() { Err? }

    function PropagateFailure<U>(): Result<U>
      requires Err?
    {
      Err(error)
    }

    function Extract(): T
      requires Ok?
    {
      value
    }
  }

  /** Python truthiness of a configuration string: a missing key and "" are
      both false, so the model writes a missing optional string as "". */
  predicate Truthy(s: string) {
    s != ""
  }

  function Max(a: int, b: int): int { if a < b then b else a }

  function Min(a: int, b: int): int { if a < b then a else b }
}

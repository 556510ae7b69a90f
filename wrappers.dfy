/** Failure-compatible result types shared by every module of the model. */
module Wrappers {

  /** What a Python or JavaScript call raises, or a `sys.exit(code)`. */
  datatype Failure =
    | TypeError(what: string)
    | KeyError(key: string)
    | ValueError(what: string)
    | AssertionFailed(what: string)
    | SystemExit(code: int)
    | Raised(what: string)
    | Unsupported(what: string)

  datatype Option<+T> = None | Some(value: T) {
    function GetOr(default: T): T {
      match this
      case Some(v) => v
      case None => default
    }
  }

  datatype Result<+T> = Ok(value: T) | Err(error: Failure) {
    predicate IsFailure() {
      Err?
    }

    function PropagateFailure<U>(): Result<U>
      requires Err?
    {
      Err(error)
    }

    function Extract(): T
      requires Ok?
    {
      value
    }
  }
}

/** Optional values, the errors the solver layer raises, and a failure-compatible Result. */
module Common {

  /** A Python value that may be `None`. */
  datatype Option<+T> = None | Some(value: T) {

    /** `get_default(value, default)`: the value when it is not `None`, else the default. */
    function GetOr(default: T): T {
      match this
      case Some(v) => v
      case None => default
    }

    /** `get_default` where the default may itself be `None`. */
    function OrElse(other: Option<T>): Option<T> {
      if Some? then this else other
    }
  }

  /** The exceptions the adapters let escape to their caller. */
  datatype Error =
    | ValueError(msg: string)
    | ImportError(msg: string)
    | KeyError(key: string)
    | AttributeError(name: string)
      /** a backend was handed `None` where it needs a matrix */
    | NoMatrix

  datatype Result<+T> = Ok(value: T) | Err(error: Error) {

    predicate IsFailure() {
      Err?
    }

    function PropagateFailure<U>(): Result<U>
      requires Err?
    {
      Err(error)
    }

    function Extract(): T
      requires Ok?
    {
      value
    }
  }
}

// Optional values and error results shared by every module of the model.
module Wrappers {
  datatype Option<T> = None | Some(value: T)
  {
    predicate IsSome() { this.Some? }

    /** The JavaScript `x ?? d` / `x || d` fallback for an optional value. */
    function GetOr(default: T): (r: T)
      ensures this.Some? ==> r == value
      ensures this.None? ==> r == default
    {
      match this
      case Some(v) => v
      case None => default
    }
  }

  /** A call that either returns a value or throws an error message. */
  datatype Result<T> = Ok(value: T) | Err(error: string)
  {
    predicate IsOk() { this.Ok? }
  }

  /** An operation that either completes or throws, without a result value. */
  datatype Outcome = Done | Failed(error: string)
}

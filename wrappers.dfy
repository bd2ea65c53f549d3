/** Option and Result values shared by every module of the model. */
module Wrappers {
  datatype Option<T> = None | Some(value: T)
  {
    predicate IsSome() { this.Some? }

    function GetOr(default: T): (r: T)
      ensures this.Some? ==> r == value
      ensures this.None? ==> r == default
    {
      match this
      case None => default
      case Some(v) => v
    }
  }

  /** A Python exception or an early exit, named by the caller's error type. */
  datatype Result<T, E> = Ok(value: T) | Err(error: E)
}

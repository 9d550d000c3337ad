/** Failure-compatible result types shared by every module of the model.

    Python exceptions of the modelled code become `Failure(e)` values; the
    `:-` operator propagates them the way an uncaught exception propagates
    out of a Python call.
 */
module Wrappers {

  datatype Option<+T> = None | Some(value: T) {

    function GetOr(default: T): T {
      match this
      case Some(v) => v
      case None => default
    }
  }

  /** The kinds of exception the modelled Python code can raise. */
  datatype Error =
    | KeyError(key: string)
    | TypeError(what: string)
    | IndexError(index: int)
    | AttributeError(what: string)
    | ValueError(what: string)
    | External(what: string)       // raised inside a collaborator (network, Jenkins, S3, ...)

  datatype Result<+R> = Success(value: R) | Failure(error: Error) {

    predicate IsFailure() {
      Failure?
    }

    function PropagateFailure<U>(): Result<U>
      requires Failure?
    {
      Failure(error)
    }

    function Extract(): R
      requires Success?
    {
      value
    }
  }

  /** A check that either passes or raises. */
  datatype Check = Pass | Raise(error: Error) {

    predicate IsFailure() {
      Raise?
    }

    function PropagateFailure<U>(): Result<U>
      requires Raise?
    {
      Failure(error)
    }
  }

  function Need(condition: bool, error: Error): (c: Check)
    ensures c.Pass? <==> condition
  {
    if condition then Pass else Raise(error)
  }
}

/** Exceptions of the catalog core and the wrappers that carry them. */
module Errors {

  /** The checked exception every factory operation declares (`GroundException`). */
  datatype GroundException = GroundException(message: string)

  datatype Option<+T> = None | Some(value: T)

  /** Outcome of a call that returns nothing but may throw. With `:-` it propagates the
      exception to the caller, as an uncaught `throws` does. */
  datatype Outcome = Pass | Fail(error: GroundException) {
    predicate IsFailure() { Fail? }

    function PropagateFailure<U>(): Result<U>
      requires Fail?
    {
      Err(error)
    }
  }

  /** Outcome of a call that returns a value or throws. */
  datatype Result<+T> = Ok(value: T) | Err(error: GroundException) {
    predicate IsFailure() { Err? }

    function PropagateFailure<U>(): Result<U>
      requires Err?
    {
      Err(error)
    }

    function Extract(): T
      requires Ok?
    {
      value
    }
  }

  /** Whether a value-returning call threw, and what. */
  function FaultOf<T>(r: Result<T>): (o: Outcome)
    ensures o.Pass? <==> r.Ok?
    ensures o.Fail? ==> o.error == r.error
  {
    match r
    case Ok(_) => Pass
    case Err(e) => Fail(e)
  }
}

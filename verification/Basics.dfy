/** Results of service calls and the failures they report. */
module Basics {

  datatype Option<+T> = None | Some(value: T)

  /** Why a service call aborted its transaction.  `Integrity` stands for a CHECK or
      UNIQUE constraint, `Crash` for an uncaught exception (a TypeError, say). */
  datatype Error =
    | NotFound | BadRequest | InvalidState | InsufficientStock | Integrity | Crash

  datatype Result<+T> = Ok(value: T) | Err(error: Error) {
    predicate IsFailure() {
      Err?
    }

    function PropagateFailure<U>(): (r: Result<U>)
      requires Err?
    {
      Err(error)
    }

    function Extract(): T
      requires Ok?
    {
      value
    }
  }

  function Need(condition: bool, error: Error): Result<()> {
    if condition then Ok(()) else Err(error)
  }

  function Min(a: int, b: int): int {
    if a <= b then a else b
  }

  /** A quantity field the request schemas declare with `gt=0`. */
  type Quantity = q: int | q > 0 witness 1
}

/** Option and Result values, used for the source's `null`/`undefined` fields and its thrown errors. */
module Wrappers {

  datatype Option<+T> = None | Some(value: T) {
    /** The value, or `default` when there is none (the source's `??` operator). */
    function GetOr(default: T): T {
      match this
      case Some(v) => v
      case None => default
    }
  }

  /** The outcome of an operation that may throw an `Error`: `Failure` carries its message. */
  datatype Result<+R> = Success(value: R) | Failure(error: string)

  /**
   * How an awaited promise settled: it resolved with a value, or it rejected
   * with an `Error` (its message) or with some other value (`Threw(None)`).
   */
  datatype Outcome<+R> = Resolved(value: R) | Threw(message: Option<string>)

  /** A promise that resolves with the success value and rejects with the failure's `Error`. */
  function ToOutcome<R>(r: Result<R>): Outcome<R> {
    match r
    case Success(v) => Resolved(v)
    case Failure(m) => Threw(Some(m))
  }
}

/**
 * The Python exceptions the modelled code can raise, and the result wrappers
 * that carry them. A raised exception is a `Failure`; nothing is caught.
 */
module Outcomes {

  datatype Error =
    | KeyError(key: string)          // a missing DataFrame column or dict key
    | NameError(name: string)        // a variable the code never binds
    | AssertionError(what: string)   // a failing `assert`
    | ValueError(what: string)       // e.g. `list.index` of an absent value
    | TypeError(what: string)        // e.g. iterating over a number
    | AttributeError(what: string)   // e.g. `None.endswith`
    | IndexError(what: string)       // e.g. indexing a numpy scalar

  datatype Result<+T> = Success(value: T) | Failure(error: Error)
  {
    predicate IsFailure() { Failure? }
    function PropagateFailure<U>(): Result<U> requires Failure? { Failure(error) }
    function Extract(): T requires Success? { value }
  }

  /** The outcome of a procedure that returns nothing (or raises). */
  datatype Outcome = Pass | Fail(error: Error)
  {
    predicate IsFailure() { Fail? }
    function PropagateFailure(): Outcome requires Fail? { this }
  }

  datatype Option<+T> = None | Some(value: T)
}

/** The exceptions the modelled code raises, and the failure-carrying wrappers
    every operation returns instead of raising. */
module Exceptions {

  /** One case per Python exception class the core can raise.  `BadRange` is
      toornament's own exception (a subclass of ToornamentException); the
      others are Python built-ins raised by dictionary lookups, comparisons,
      attribute access, iteration and `int()`. */
  datatype Error =
    | BadRange
    | ValueError
    | TypeError
    | AttributeError
    | IndexError
    | KeyError(key: string)
}

module Wrappers {
  import opened Exceptions

  datatype Option<+T> = None | Some(value: T)

  /** The value of a call that either returns `value` or raises `error`. */
  datatype Result<+T> = Ok(value: T) | Err(error: Error) {
    predicate IsFailure() { Err? }

    function PropagateFailure<U>(): Result<U>
      requires Err?
    {
      Err(error)
    }

    function Extract(): T
      requires Ok?
    {
      value
    }
  }

  /** The outcome of a call that returns nothing (Python `None`) or raises. */
  datatype Outcome = Pass | Fail(error: Error)
}

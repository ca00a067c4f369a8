/** Python runtime notions the modelled code relies on: `None`, exceptions,
    calls that either return or raise, and the `{'x': int, 'y': int}` point
    dictionary that flows from the aiming model to the mouse. */
module Py {

  /** A value or Python's `None`. */
  datatype Option<+T> = None | Some(value: T)

  /** The exception classes the modelled code raises, catches or lets through. */
  datatype Exception =
    | ValueError
    | TypeError
    | AttributeError
    | OverflowError
    | JsonDecodeError
    | TimeoutError      // concurrent.futures.TimeoutError
    | CancelledError    // concurrent.futures.CancelledError
    | OtherError(name: string)

  /** What a Python call does: it returns a value or raises an exception.
      Failure-compatible, so `:-` propagates a raised exception. */
  datatype Outcome<+T> = Returned(value: T) | Raised(error: Exception) {

    predicate IsFailure() {
      Raised?
    }

    function PropagateFailure<U>(): Outcome<U>
      requires Raised?
    {
      Raised(error)
    }

    function Extract(): T
      requires Returned?
    {
      value
    }

    /** `try: ... except Exception: return None` around the call. */
    function Caught(): Option<T> {
      match this
      case Returned(v) => Some(v)
      case Raised(_) => None
    }
  }

  /** The `{'x': int, 'y': int}` dictionary used for screen coordinates. */
  datatype Point = Point(x: int, y: int)
}

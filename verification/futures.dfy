/** The part of `concurrent.futures.Future` that counter_strike/agent.py uses,
    as an abstract state. A future records how its call ends once it has run
    and how long `result()` would block for it; threads and clocks are not
    modelled, and everything happens in program order. */
module Futures {
  import opened Py

  /** The states of a CPython future. */
  datatype Status = Pending | Running | Finished | Cancelled

  /** A submitted call: its state, what the call returns or raises once it
      has run, and the seconds `result()` blocks while it is not done. */
  datatype Future<T> = Future(status: Status, eventual: Outcome<T>, wait: real)

  /** `done()`: finished or cancelled. */
  predicate Done<T>(f: Future<T>) {
    f.status == Finished || f.status == Cancelled
  }

  /** `cancel()`: a pending call becomes cancelled and an already cancelled
      one stays so, both returning `True`; a running or finished one is
      left alone and `False` is returned. */
  function Cancel<T>(f: Future<T>): (r: (Future<T>, bool))
    ensures r.1 <==> f.status != Running && f.status != Finished
    ensures r.1 ==> r.0.status == Cancelled
    ensures !r.1 ==> r.0 == f
    ensures r.0.eventual == f.eventual
  {
    match f.status
    case Pending => (f.(status := Cancelled), true)
    case Cancelled => (f, true)
    case Running => (f, false)
    case Finished => (f, false)
  }

  /** `result(timeout)`: a cancelled future raises `CancelledError`, a
      finished one gives back what its call returned or raised; otherwise
      the caller blocks until the call has run, or raises `TimeoutError`
      once `timeout` seconds have passed first. */
  function Result<T>(f: Future<T>, timeout: Option<real>): (r: Outcome<T>)
    ensures f.status == Cancelled ==> r == Raised(CancelledError)
    ensures f.status != Cancelled ==> r == f.eventual || r == Raised(TimeoutError)
    ensures r == Raised(TimeoutError) && f.eventual != r ==>
              !Done(f) && timeout.Some? && timeout.value < f.wait
  {
    match f.status
    case Cancelled => Raised(CancelledError)
    case Finished => f.eventual
    case _ =>
      if timeout.Some? && timeout.value < f.wait then Raised(TimeoutError) else f.eventual
  }

  /** The seconds `result()` without a timeout blocks. */
  function Waited<T>(f: Future<T>): (t: real)
    ensures t >= 0.0
    ensures Done(f) ==> t == 0.0
  {
    if Done(f) || f.wait < 0.0 then 0.0 else f.wait
  }

  /** The future once its call has run: what the caller sees after a
      blocking `result()` and after the executor's `shutdown(wait=True)`. */
  function Settled<T>(f: Future<T>): (r: Future<T>)
    ensures Done(r) && r.eventual == f.eventual
    ensures r.status == Cancelled <==> f.status == Cancelled
    ensures Done(f) ==> r == f
  {
    if Done(f) then f else f.(status := Finished, wait := 0.0)
  }

  /** A second `cancel()` changes nothing and reports what the first did. */
  lemma CancelIdempotent<T>(f: Future<T>)
    ensures Cancel(Cancel(f).0) == Cancel(f)
  {
  }

  /** A cancelled call's result is `CancelledError`, and a call that was
      running or finished still delivers its own outcome. */
  lemma ResultAfterCancel<T>(f: Future<T>)
    ensures Cancel(f).1 ==> Result(Cancel(f).0, None) == Raised(CancelledError)
    ensures !Cancel(f).1 ==> Result(Cancel(f).0, None) == f.eventual
  {
  }
}

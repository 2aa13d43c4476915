/** Python's None-or-value and raise-or-return, written as values. */
module Outcomes {

  datatype Option<+T> = None | Some(value: T)

  /** The exceptions the connection code lets escape or swallows. */
  datatype Exc =
    | AttributeError   // an attribute of None was used (no engine, no stream)
    | KeyError         // `del d[k]` or `set.remove(x)` on a missing element
    | HandlerError     // a stream handler's `handle_event` raised

  /** The outcome of a call that returns nothing in Python. */
  datatype Status = Ok | Raised(error: Exc)

  /** The outcome of a call that returns a value in Python. */
  datatype Result<+T> = Success(value: T) | Failure(error: Exc)
}

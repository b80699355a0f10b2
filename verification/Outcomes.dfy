/** Results of operations that the Python code reports by raising. */
module Outcomes {
  import opened Bytes

  /** Rejected is ControlRejected: a precondition failed before any control was sent.
      Died is the end of the process: nothing after the await runs, not even cleanup. */
  datatype Error =
    | Protocol
    | DeviceException(code: Byte)
    | Unavailable
    | Transport
    | Timeout
    | Cancelled
    | Rejected
    | Died

  datatype Result<+T> = Success(value: T) | Failure(error: Error) {
    predicate IsFailure() { Failure? }

    function PropagateFailure<U>(): Result<U>
      requires Failure?
    {
      Failure(error)
    }

    function Extract(): T
      requires Success?
    {
      value
    }
  }

  datatype Option<+T> = None | Some(value: T)
}

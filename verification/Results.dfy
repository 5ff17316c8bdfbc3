/** Failure-compatible results shared by every module, with the error classes of `TreasuryError`. */
module Results {

  datatype Option<+T> = None | Some(value: T)

  /** `RateLimited` is the one `Forbidden` message that `handle_persisted` treats specially. */
  datatype Error = Invalid | Unauthorized | Forbidden | NotFound | Conflict | MoneyError | RateLimited | Io

  datatype Result<+T> = Ok(value: T) | Err(error: Error) {
    predicate IsFailure() {
      Err?
    }

    function PropagateFailure<U>(): Result<U>
      requires Err?
    {
      Err(error)
    }

    function Extract(): T
      requires Ok?
    {
      value
    }
  }
}

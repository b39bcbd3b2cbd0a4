/** Failure-compatible result types shared by the whole model. */
module Wrappers {

  /** A value that may be absent: Java's `null` returns. */
  datatype Option<+T> = None | Some(value: T)

  /** A value, or the message of the exception that replaced it. */
  datatype Result<+T> = Ok(value: T) | Err(msg: string)

  /** A check that either returns normally or throws with a message. */
  datatype Outcome = Pass | Fail(msg: string)

  /** Runs `first`; only when it passes does the outcome of `next` matter. */
  function Then(first: Outcome, next: Outcome): (r: Outcome)
    ensures first.Fail? ==> r == first
    ensures first.Pass? ==> r == next
  {
    if first.Fail? then first else next
  }
}

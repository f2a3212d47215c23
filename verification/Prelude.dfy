/** Types shared by every part of the model. */
module Prelude {

  /** A JavaScript value that may be `null` or `undefined`. */
  datatype Option<+T> = None | Some(value: T)

  /** The engine's verdict constants. `OutputLimitExceeded` is the one that the
      submission schema does not list. */
  datatype Verdict =
    | Pending
    | Accepted
    | WrongAnswer
    | CompilationError
    | RuntimeError
    | TimeLimitExceeded
    | MemoryLimitExceeded
    | OutputLimitExceeded

  /** The `verdict` enum of the submission schema. */
  predicate InSchema(v: Verdict) {
    v != OutputLimitExceeded
  }

  /** What the worker can tell about an error: whether a retry may help. */
  datatype Fault = NonRetryable | Retryable

  function Min(a: int, b: int): int {
    if a <= b then a else b
  }
}

/** Error categories of a failed model call and the recovery each one allows
    (pawlia/agents/error_classifier.py, pawlia/llm.py). */
module Errors {

  datatype Category =
    | ContextOverflow
    | RateLimit
    | AuthError
    | Timeout
    | ServerError
    | FormatError
    | Unknown

  /** Worth another attempt with the same prompt. */
  predicate Retryable(c: Category) {
    c in {RateLimit, Timeout, ServerError, Unknown}
  }

  /** Counted against the model's health by the fallback chain. */
  predicate BenchEligible(c: Category) {
    c in {RateLimit, Timeout, ServerError, Unknown}
  }

  datatype Option<+T> = None | Some(value: T)
}

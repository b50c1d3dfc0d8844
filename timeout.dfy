/**
 * The bound on the first party's wait. `App::validate_timeout` and
 * `AppState::is_valid_timeout` are the same check over the same constants;
 * it is defined once here and used by both.
 */
module Timeout {
  import opened Wrappers
  import opened Native

  const MinTimeout: u64 := 5
  const MaxTimeout: u64 := 300
  const DefaultTimeout: u64 := 10

  /** `ConfigError::Message`. */
  datatype ConfigError = Message(text: string)

  const TooShortMessage := "Timeout cannot be less than 5 seconds"
  const TooLongMessage := "timeout cannot exceed 300 seconds"

  /** The accepted range, both bounds included. */
  predicate InRange(seconds: u64) {
    MinTimeout <= seconds <= MaxTimeout
  }

  /** Accepts exactly the in-range timeouts; the lower bound is checked first. */
  function ValidateTimeout(seconds: u64): (r: Outcome<ConfigError>)
    ensures r.Pass? <==> InRange(seconds)
    ensures r == Fail(Message(TooShortMessage)) <==> seconds < MinTimeout
    ensures r == Fail(Message(TooLongMessage)) <==> seconds > MaxTimeout
  {
    if seconds < MinTimeout then Fail(Message(TooShortMessage))
    else if seconds > MaxTimeout then Fail(Message(TooLongMessage))
    else Pass
  }

  /** The default used when nothing is configured passes validation. */
  lemma DefaultTimeoutIsValid()
    ensures ValidateTimeout(DefaultTimeout) == Pass
  {
  }
}

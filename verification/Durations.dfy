/** The rule for configured durations (launch.go). */
module Durations {
  /** A duration that is not positive means the default. */
  function FiniteDuration(value: int, fallback: nat): nat {
    if value <= 0 then fallback else value
  }
}

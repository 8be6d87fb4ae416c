/**
  The retry decision both HTTP clients plug into Guzzle's retry middleware,
  and how many times one request is sent when the middleware follows it.
 */
module Retry {
  import opened Wrappers

  /** `createDefaultDecider($maxRetries)` called with the number of retries made so far,
      the status of the response (if one arrived) and the transport error (if one was raised). */
  function Decide(maxRetries: int, retries: int, status: Option<int>, error: Option<string>): (retry: bool)
    ensures retries >= maxRetries ==> !retry
    ensures retries < maxRetries ==> (retry <==> (status.Some? && status.value >= 500) || error.Some?)
  {
    if retries >= maxRetries then false
    else if status.Some? && status.value >= 500 then true
    else if error.Some? then true
    else false
  }

  /** How one send ends: a response with a status code, or a rejection by the transport. */
  datatype Outcome = Answered(status: int) | Rejected(reason: string)

  /** The outcomes the decider would retry below its cap: a server error or a transport error. */
  predicate Retriable(outcome: Outcome) {
    match outcome
    case Answered(status) => status >= 500
    case Rejected(_) => true
  }

  /** The middleware asks the decider with the response on fulfilment and with the error on rejection. */
  function Consult(maxRetries: int, retries: int, outcome: Outcome): bool {
    match outcome
    case Answered(status) => Decide(maxRetries, retries, Some(status), None)
    case Rejected(reason) => Decide(maxRetries, retries, None, Some(reason))
  }

  /** The number of sends from retry number `retries` on, when send number `k` (from 0) ends with
      `outcome(k)`: every send but the last ended retriably, and the last one either did not or
      reached the cap. */
  function Sends(maxRetries: int, outcome: nat -> Outcome, retries: nat): (n: nat)
    ensures n >= 1
    ensures retries + n <= (if retries < maxRetries then maxRetries else retries) + 1
    ensures forall k :: retries <= k < retries + n - 1 ==> Retriable(outcome(k))
    ensures retries + n - 1 >= maxRetries || !Retriable(outcome(retries + n - 1))
    decreases if retries < maxRetries then maxRetries - retries else 0
  {
    if Consult(maxRetries, retries, outcome(retries)) then 1 + Sends(maxRetries, outcome, retries + 1) else 1
  }

  /** With a cap of `maxRetries`, a request is sent at most `maxRetries + 1` times, and exactly once
      when its first send does not end retriably. */
  lemma SendsBounded(maxRetries: nat, outcome: nat -> Outcome)
    ensures 1 <= Sends(maxRetries, outcome, 0) <= maxRetries + 1
    ensures !Retriable(outcome(0)) ==> Sends(maxRetries, outcome, 0) == 1
  {
  }
}

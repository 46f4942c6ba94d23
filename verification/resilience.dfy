/** The circuit breaker around external calls (localknow/core/resilience.py):
    three fields of module-level state, a failure threshold of 3 and a
    cooldown of 60 seconds. The clock is the pair of parameters `now` (read
    before the call) and `failedAt` (read after a failed call); the wrapped
    function is its outcome, `Answer(result)` or `Raised(message)`, used
    only when the breaker lets the call through. */
module Resilience {
  import opened Common

  const FailureThreshold: nat := 3
  const CooldownPeriod: real := 60.0

  datatype State = State(isOpen: bool, failureCount: int, lastFailureTime: real)

  const Initial: State := State(false, 0, 0.0)

  /** What the wrapper does with one call: the wrapped function's result,
      its exception re-raised, or the ConnectionError of an open circuit. */
  datatype CallResult = Returned(value: string) | Reraised(message: string) | Rejected

  /** The state the breaker keeps: the count stays within 0..3 and the
      circuit is open exactly when it has reached 3. */
  predicate Consistent(s: State)
  {
    0 <= s.failureCount <= FailureThreshold && (s.isOpen <==> s.failureCount == FailureThreshold)
  }

  /** The state after the cooldown check: an open circuit whose last failure
      is more than 60 seconds old is closed with a zero count. */
  function AfterCooldown(s: State, now: real): (r: State)
    ensures Consistent(s) ==> Consistent(r)
    ensures !s.isOpen ==> r == s
    ensures r.isOpen ==> r == s && now - s.lastFailureTime <= CooldownPeriod
    ensures r != s ==> r == Initial
  {
    if s.isOpen && now - s.lastFailureTime > CooldownPeriod then State(false, 0, 0.0) else s
  }

  /** One call through the wrapper. */
  function Call(s: State, now: real, outcome: Reply, failedAt: real): (r: (State, CallResult))
    ensures Consistent(s) ==> Consistent(r.0)
    ensures r.1 == Rejected <==> s.isOpen && now - s.lastFailureTime <= CooldownPeriod
    ensures r.1 == Rejected ==> r.0 == s
    ensures r.1 != Rejected && outcome.Answer? ==> r == (AfterCooldown(s, now).(failureCount := 0), Returned(outcome.text))
    ensures r.1 != Rejected && outcome.Raised? ==>
      r.1 == Reraised(outcome.message) && r.0.lastFailureTime == failedAt && r.0.failureCount == AfterCooldown(s, now).failureCount + 1
  {
    var t := AfterCooldown(s, now);
    if t.isOpen then (t, Rejected)
    else if outcome.Answer? then (t.(failureCount := 0), Returned(outcome.text))
    else
      var count := t.failureCount + 1;
      (State(count >= FailureThreshold, count, failedAt), Reraised(outcome.message))
  }

  /** The breaker's invariant holds initially and survives every call. */
  lemma CallKeepsConsistent(s: State, now: real, outcome: Reply, failedAt: real)
    requires Consistent(s)
    ensures Consistent(Initial)
    ensures Consistent(Call(s, now, outcome, failedAt).0)
  {
  }

  /** An open circuit inside its cooldown rejects the call, so the wrapped
      function does not run, and the state stays as it is; past the
      cooldown the call goes through. */
  lemma OpenRejects(s: State, now: real, outcome: Reply, failedAt: real)
    requires s.isOpen
    ensures Call(s, now, outcome, failedAt).1 == Rejected <==> now - s.lastFailureTime <= CooldownPeriod
    ensures now - s.lastFailureTime <= CooldownPeriod ==> Call(s, now, outcome, failedAt).0 == s
  {
  }

  /** A call that goes through returns the function's result with a zero
      count, or re-raises its exception with the count one higher, the
      failure time recorded and the circuit open from the third failure. */
  lemma ClosedCall(s: State, now: real, outcome: Reply, failedAt: real)
    requires Consistent(s) && !s.isOpen
    ensures var (t, r) := Call(s, now, outcome, failedAt);
      && (outcome.Answer? ==> r == Returned(outcome.text) && t == s.(failureCount := 0))
      && (outcome.Raised? ==>
            && r == Reraised(outcome.message)
            && t.failureCount == s.failureCount + 1 && t.lastFailureTime == failedAt
            && (t.isOpen <==> s.failureCount + 1 == FailureThreshold))
  {
  }

  /** A cooldown reset forgets the earlier failures: one failure after it
      leaves the circuit closed with a count of 1 instead of reopening it. */
  lemma ResetForgetsFailures(s: State, now: real, message: string, failedAt: real)
    requires Consistent(s) && s.isOpen && now - s.lastFailureTime > CooldownPeriod
    ensures Call(s, now, Raised(message), failedAt) == (State(false, 1, failedAt), Reraised(message))
  {
  }

  /** A sequence of calls: the clock readings and the function's outcome. */
  datatype Event = Event(now: real, outcome: Reply, failedAt: real)

  function Calls(s: State, events: seq<Event>): State
  {
    if events == [] then s
    else
      var e := events[|events| - 1];
      Call(Calls(s, events[..|events| - 1]), e.now, e.outcome, e.failedAt).0
  }

  /** From a closed circuit, 3 - count consecutive failures open it, and
      every prefix shorter than that leaves it closed. */
  lemma {:induction false} ConsecutiveFailuresOpen(s: State, events: seq<Event>)
    requires Consistent(s) && !s.isOpen
    requires |events| <= FailureThreshold - s.failureCount
    requires forall i :: 0 <= i < |events| ==> events[i].outcome.Raised?
    ensures Consistent(Calls(s, events))
    ensures Calls(s, events).failureCount == s.failureCount + |events|
    ensures Calls(s, events).isOpen <==> |events| == FailureThreshold - s.failureCount
  {
    if events != [] {
      ConsecutiveFailuresOpen(s, events[..|events| - 1]);
    }
  }

  /** The module-level state dict, as an object. */
  class CircuitBreaker {
    var isOpen: bool
    var failureCount: int
    var lastFailureTime: real

    function Snapshot(): State
      reads this
    {
      State(isOpen, failureCount, lastFailureTime)
    }

    constructor()
      ensures Snapshot() == Initial
    {
      isOpen, failureCount, lastFailureTime := false, 0, 0.0;
    }

    /** wrapper: the cooldown check, the open-circuit rejection, then the
        wrapped call with its success reset or failure count. */
    method Wrap(now: real, outcome: Reply, failedAt: real) returns (r: CallResult)
      modifies this
      ensures (Snapshot(), r) == Call(old(Snapshot()), now, outcome, failedAt)
      ensures Consistent(old(Snapshot())) ==> Consistent(Snapshot())
    {
      if Consistent(Snapshot()) {
        CallKeepsConsistent(Snapshot(), now, outcome, failedAt);
      }
      if isOpen && now - lastFailureTime > CooldownPeriod {
        isOpen, failureCount, lastFailureTime := false, 0, 0.0;
      }
      if isOpen {
        return Rejected;
      }
      if outcome.Answer? {
        failureCount := 0;
        return Returned(outcome.text);
      }
      failureCount := failureCount + 1;
      lastFailureTime := failedAt;
      if failureCount >= FailureThreshold {
        isOpen := true;
      }
      r := Reraised(outcome.message);
    }
  }
}

/** circuit_breaker.py: the breaker as an object, and what its fields say about the calls so far. */
module BreakerModel {
  import opened Domain

  datatype CircuitState = Closed | Open | HalfOpen

  datatype Limits = Limits(failureThreshold: int, successThreshold: int, timeout: real)

  datatype Breaker = Breaker(state: CircuitState, failures: nat, successes: nat, lastFailure: Option<real>)

  const NEW_BREAKER := Breaker(Closed, 0, 0, None)

  /** `_check_state_transition`. A failure time of 0.0 is falsy and counts as none. */
  function Check(b: Breaker, limits: Limits, now: real): Breaker {
    if b.state.Open? && b.lastFailure.Some? && b.lastFailure.value != 0.0 && now - b.lastFailure.value >= limits.timeout then
      b.(state := HalfOpen, successes := 0)
    else b
  }

  predicate Admits(b: Breaker, limits: Limits, now: real) {
    !Check(b, limits, now).state.Open?
  }

  /** `_on_success`. */
  function Succeed(b: Breaker, limits: Limits): Breaker {
    match b.state
    case HalfOpen =>
      if b.successes + 1 >= limits.successThreshold then b.(state := Closed, failures := 0, successes := b.successes + 1)
      else b.(successes := b.successes + 1)
    case Closed => b.(failures := 0)
    case Open => b
  }

  /** `_on_failure`. */
  function Fail(b: Breaker, limits: Limits, now: real): Breaker {
    b.(failures := b.failures + 1,
       lastFailure := Some(now),
       state := if b.state.HalfOpen? || (b.state.Closed? && b.failures + 1 >= limits.failureThreshold) then Open else b.state)
  }

  class CircuitBreaker {
    const limits: Limits
    var state: CircuitState
    var failureCount: nat
    var successCount: nat
    var lastFailureTime: Option<real>

    constructor (limits: Limits)
      ensures this.limits == limits && Value() == NEW_BREAKER
    {
      this.limits := limits;
      state, failureCount, successCount, lastFailureTime := Closed, 0, 0, None;
    }

    function Value(): Breaker
      reads this
    {
      Breaker(state, failureCount, successCount, lastFailureTime)
    }

    method CheckStateTransition(now: real)
      modifies this
      ensures Value() == Check(old(Value()), limits, now)
    {
      if state == Open {
        if lastFailureTime.Some? && lastFailureTime.value != 0.0 && now - lastFailureTime.value >= limits.timeout {
          state := HalfOpen;
          successCount := 0;
        }
      }
    }

    /** The first half of `call`: false stands for CircuitOpenError. */
    method Admit(now: real) returns (admitted: bool)
      modifies this
      ensures Value() == Check(old(Value()), limits, now)
      ensures admitted <==> Admits(old(Value()), limits, now)
    {
      CheckStateTransition(now);
      admitted := state != Open;
    }

    method OnSuccess()
      modifies this
      ensures Value() == Succeed(old(Value()), limits)
    {
      if state == HalfOpen {
        successCount := successCount + 1;
        if successCount >= limits.successThreshold {
          state := Closed;
          failureCount := 0;
        }
      } else if state == Closed {
        failureCount := 0;
      }
    }

    method OnFailure(now: real)
      modifies this
      ensures Value() == Fail(old(Value()), limits, now)
    {
      failureCount := failureCount + 1;
      lastFailureTime := Some(now);
      if state == HalfOpen {
        state := Open;
      } else if state == Closed {
        if failureCount >= limits.failureThreshold {
          state := Open;
        }
      }
    }
  }

  // ----- the log of everything that happens to one breaker -----

  /** Calls overlap freely: what ends at some point may have been admitted long before. A
      permanent error and a cancelled call are never reported to the breaker. */
  datatype Event = Request(at: real) | Success | Failure(at: real) | PermanentError | Cancelled

  function Step(b: Breaker, limits: Limits, event: Event): Breaker {
    match event
    case Request(at) => Check(b, limits, at)
    case Success => Succeed(b, limits)
    case Failure(at) => Fail(b, limits, at)
    case PermanentError => b
    case Cancelled => b
  }

  function After(limits: Limits, log: seq<Event>): Breaker {
    if log == [] then NEW_BREAKER else Step(After(limits, log[..|log| - 1]), limits, log[|log| - 1])
  }

  /** Counted failures since the last success. */
  function FailuresInARow(log: seq<Event>): nat {
    if log == [] then 0
    else
      match log[|log| - 1]
      case Success => 0
      case Failure(_) => FailuresInARow(log[..|log| - 1]) + 1
      case _ => FailuresInARow(log[..|log| - 1])
  }

  function LastFailure(log: seq<Event>): Option<real> {
    if log == [] then None
    else if log[|log| - 1].Failure? then Some(log[|log| - 1].at)
    else LastFailure(log[..|log| - 1])
  }

  /** The request at `i` is the one that lets a first call through again. */
  predicate IsProbe(limits: Limits, log: seq<Event>, i: nat)
    requires i < |log|
  {
    log[i].Request? && After(limits, log[..i]).state.Open? && Admits(After(limits, log[..i]), limits, log[i].at)
  }

  function Successes(log: seq<Event>): nat {
    if log == [] then 0 else Successes(log[..|log| - 1]) + (if log[|log| - 1].Success? then 1 else 0)
  }

  predicate FailureFree(log: seq<Event>) {
    forall event :: event in log ==> !event.Failure?
  }

  /** Since request `i` the circuit has been half open: nothing failed and too little succeeded. */
  predicate ProbedAt(limits: Limits, log: seq<Event>, i: nat) {
    i < |log| && IsProbe(limits, log, i) && FailureFree(log[i..])
    && Successes(log[i..]) == After(limits, log).successes < limits.successThreshold
  }

  ghost predicate Explained(limits: Limits, log: seq<Event>) {
    var b := After(limits, log);
    && b.lastFailure == LastFailure(log)
    && (b.state.Closed? ==> b.failures == FailuresInARow(log) < limits.failureThreshold)
    && (b.state.Open? ==> b.lastFailure.Some?)
    && (b.state.HalfOpen? ==> exists i :: ProbedAt(limits, log, i))
  }

  lemma ProbeStays(limits: Limits, log: seq<Event>, event: Event, i: nat)
    requires ProbedAt(limits, log, i) && After(limits, log).state.HalfOpen? && !event.Failure?
    requires After(limits, log + [event]).state.HalfOpen?
    ensures ProbedAt(limits, log + [event], i)
  {
    var log' := log + [event];
    assert log'[..i] == log[..i] && log'[i] == log[i] && log'[..|log|] == log;
    assert log'[i..] == log[i..] + [event];
    assert log'[i..][..|log| - i] == log[i..];
  }

  lemma ProbeBegins(limits: Limits, log: seq<Event>, event: Event)
    requires limits.successThreshold >= 1
    requires After(limits, log).state.Open? && event.Request? && Admits(After(limits, log), limits, event.at)
    ensures ProbedAt(limits, log + [event], |log|)
  {
    var log' := log + [event];
    assert log'[..|log|] == log && log'[|log|..] == [event];
    assert Successes([event]) == Successes([]) == 0 by { assert [event][..0] == []; }
  }

  /** However calls overlap: while closed, the failure count is that of the failures since the
      last success and below the threshold; half open means that a request was let through
      after the timeout and since then nothing has failed and fewer successes than the
      threshold have come in; open means that a failure time is on record. */
  lemma {:induction false} BreakerExplained(limits: Limits, log: seq<Event>)
    requires limits.failureThreshold >= 1 && limits.successThreshold >= 1
    ensures Explained(limits, log)
  {
    if log != [] {
      var init, event := log[..|log| - 1], log[|log| - 1];
      assert log == init + [event];
      BreakerExplained(limits, init);
      var b, b' := After(limits, init), After(limits, log);
      assert b' == Step(b, limits, event);
      if b'.state.HalfOpen? {
        if b.state.HalfOpen? {
          var i :| ProbedAt(limits, init, i);
          ProbeStays(limits, init, event, i);
        } else {
          ProbeBegins(limits, init, event);
        }
      }
    }
  }

  /** Nothing is let through an open circuit before the timeout has passed since the last
      counted failure, and everything is from then on. */
  lemma OpenUntilTimeout(limits: Limits, log: seq<Event>, now: real)
    requires limits.failureThreshold >= 1 && limits.successThreshold >= 1
    requires After(limits, log).state.Open?
    ensures LastFailure(log).Some?
    ensures Admits(After(limits, log), limits, now) <==>
            LastFailure(log).value != 0.0 && now - LastFailure(log).value >= limits.timeout
  {
    BreakerExplained(limits, log);
  }

  /** An open circuit takes that long, then as many successes in a row as the threshold asks
      for, to close; one failure on the way opens it again. */
  lemma ClosingTakesSuccesses(limits: Limits, log: seq<Event>, event: Event)
    requires limits.failureThreshold >= 1 && limits.successThreshold >= 1
    requires !After(limits, log).state.Closed? && After(limits, log + [event]).state.Closed?
    ensures event.Success?
    ensures exists i :: 0 <= i < |log| && IsProbe(limits, log, i) && FailureFree(log[i..])
              && Successes(log[i..]) + 1 == limits.successThreshold
  {
    BreakerExplained(limits, log);
    assert (log + [event])[..|log|] == log;
    assert After(limits, log).state.HalfOpen?;
    var i :| ProbedAt(limits, log, i);
    assert IsProbe(limits, log, i);
  }

  /** Every transition, read off the log. A closed circuit opens exactly at the failure that makes
      as many in a row as the threshold; an open one lets a request probe it exactly if the
      timeout has passed since the last counted failure; a half-open one opens at any failure and
      closes exactly at the success that makes as many since the probe as the threshold. */
  lemma TransitionsExactly(limits: Limits, log: seq<Event>, event: Event)
    requires limits.failureThreshold >= 1 && limits.successThreshold >= 1
    ensures var before, after := After(limits, log).state, After(limits, log + [event]).state;
            && (before.Closed? ==>
                  && (after.Open? <==> event.Failure? && FailuresInARow(log) + 1 >= limits.failureThreshold)
                  && !after.HalfOpen?)
            && (before.Open? ==>
                  && (after.HalfOpen? <==> event.Request? && LastFailure(log).Some? && LastFailure(log).value != 0.0
                                           && event.at - LastFailure(log).value >= limits.timeout)
                  && !after.Closed?)
            && (before.HalfOpen? ==>
                  && (after.Open? <==> event.Failure?)
                  && exists i :: 0 <= i < |log| && IsProbe(limits, log, i) && FailureFree(log[i..])
                                 && (after.Closed? <==> event.Success? && Successes(log[i..]) + 1 == limits.successThreshold))
  {
    BreakerExplained(limits, log);
    assert (log + [event])[..|log|] == log;
    if After(limits, log).state.HalfOpen? {
      var i :| ProbedAt(limits, log, i);
      assert IsProbe(limits, log, i);
    }
  }

  /** The log without what is not reported. */
  function Counted(log: seq<Event>): seq<Event> {
    if log == [] then []
    else
      var init, last := log[..|log| - 1], log[|log| - 1];
      if last.PermanentError? || last.Cancelled? then Counted(init) else Counted(init) + [last]
  }

  /** Permanent errors and cancelled calls leave no trace. */
  lemma {:induction false} OnlyCountedMatters(limits: Limits, log: seq<Event>)
    ensures After(limits, Counted(log)) == After(limits, log)
  {
    if log != [] {
      var init, last := log[..|log| - 1], log[|log| - 1];
      OnlyCountedMatters(limits, init);
      if !last.PermanentError? && !last.Cancelled? {
        assert (Counted(init) + [last])[..|Counted(init)|] == Counted(init);
      }
    }
  }
}

/** retryable.py: with_retry, alone on a circuit breaker. */
module RetryModel {
  import opened BreakerModel

  /** The three answers of `classify_error`. */
  datatype ErrorClass = Retryable | Permanent | Unknown

  datatype Outcome = Returns | Raises(error: ErrorClass)

  datatype Policy = Policy(maxRetries: int, baseDelay: real, maxDelay: real)

  /** What the environment decides, attempt by attempt: how the call ends and how long it takes,
      what random.random() draws, and how much later than asked for a sleep ends. */
  datatype Env = Env(outcome: nat -> Outcome, duration: nat -> real, random: nat -> real, overrun: nat -> real)

  datatype End = Returned | Failed(error: ErrorClass) | CircuitOpen | NeverTried

  /** A whole run: the breaker and the clock after it, the calls made, the delays asked for. */
  datatype Trace = Trace(b: Breaker, now: real, calls: nat, slept: real, end: End)

  function Power2(n: nat): real {
    if n == 0 then 1.0 else 2.0 * Power2(n - 1)
  }

  function Min(x: real, y: real): real {
    if x <= y then x else y
  }

  /** Exponential backoff up to the cap. */
  function Backoff(policy: Policy, attempt: nat): real {
    Min(policy.baseDelay * Power2(attempt), policy.maxDelay)
  }

  /** Half of a delay to one and a half times it, the latter excluded. */
  function Jittered(delay: real, random: real): real {
    delay * (0.5 + random)
  }

  function Delay(policy: Policy, env: Env, attempt: nat): real {
    Jittered(Backoff(policy, attempt), env.random(attempt))
  }

  /** The loop from `attempt` on. */
  function Attempts(b: Breaker, limits: Limits, policy: Policy, env: Env, attempt: nat, now: real): Trace
    decreases policy.maxRetries + 1 - attempt
  {
    if attempt > policy.maxRetries then Trace(b, now, 0, 0.0, NeverTried)
    else if !Admits(b, limits, now) then Trace(b, now, 0, 0.0, CircuitOpen)
    else
      var b1, now1 := Check(b, limits, now), now + env.duration(attempt);
      match env.outcome(attempt)
      case Returns => Trace(Succeed(b1, limits), now1, 1, 0.0, Returned)
      case Raises(error) =>
        var b2 := if error.Permanent? then b1 else Fail(b1, limits, now1);
        if error.Permanent? || attempt == policy.maxRetries then Trace(b2, now1, 1, 0.0, Failed(error))
        else
          var delay := Delay(policy, env, attempt);
          var rest := Attempts(b2, limits, policy, env, attempt + 1, now1 + delay + env.overrun(attempt));
          rest.(calls := rest.calls + 1, slept := rest.slept + delay)
  }

  /** The loop. It returns exactly if its last call did, raises what its last call raised if that
      is permanent or was the last attempt, and otherwise stops at an open circuit. */
  method WithRetry(cb: CircuitBreaker, policy: Policy, env: Env, start: real)
    returns (now: real, calls: nat, slept: real, end: End)
    modifies cb
    ensures Trace(cb.Value(), now, calls, slept, end) == Attempts(old(cb.Value()), cb.limits, policy, env, 0, start)
    ensures end.Returned? <==> calls > 0 && env.outcome(calls - 1).Returns?
    ensures forall error :: end == Failed(error) <==>
              calls > 0 && env.outcome(calls - 1) == Raises(error) && (error.Permanent? || calls - 1 == policy.maxRetries)
    ensures end.NeverTried? <==> policy.maxRetries < 0
  {
    hide EndsWith, Made, LetThrough, Delays, Sleeps, Delay;
    EndIff(cb.Value(), cb.limits, policy, env, start);
    now, calls, slept, end := start, 0, 0.0, NeverTried;
    var attempt := 0;
    while attempt <= policy.maxRetries
      invariant attempt >= 0 && end.NeverTried?
      invariant var rest := Attempts(cb.Value(), cb.limits, policy, env, attempt, now);
                rest.(calls := calls + rest.calls, slept := slept + rest.slept) ==
                Attempts(old(cb.Value()), cb.limits, policy, env, 0, start)
      decreases policy.maxRetries - attempt
    {
      var admitted := cb.Admit(now);
      if !admitted {
        end := CircuitOpen;
        return;
      }
      calls := calls + 1;
      now := now + env.duration(attempt);
      match env.outcome(attempt) {
        case Returns =>
          cb.OnSuccess();
          end := Returned;
          return;
        case Raises(error) =>
          if error.Permanent? {
            end := Failed(error);
            return;
          }
          cb.OnFailure(now);
          if attempt == policy.maxRetries {
            end := Failed(error);
            return;
          }
          var delay := Delay(policy, env, attempt);
          slept := slept + delay;
          now := now + delay + env.overrun(attempt);
      }
      attempt := attempt + 1;
    }
  }

  // ----- which calls are made, and how it ends -----

  /** Breaker and clock when attempt k comes up, if all before it were let through and failed in a
      way that is tried again. */
  function Upcoming(b: Breaker, limits: Limits, policy: Policy, env: Env, start: real, k: nat): (Breaker, real) {
    if k == 0 then (b, start)
    else
      var (b0, now0) := Upcoming(b, limits, policy, env, start, k - 1);
      var now1 := now0 + env.duration(k - 1);
      (Fail(Check(b0, limits, now0), limits, now1), now1 + Delay(policy, env, k - 1) + env.overrun(k - 1))
  }

  predicate LetThrough(b: Breaker, limits: Limits, policy: Policy, env: Env, start: real, k: nat) {
    var (bk, nowk) := Upcoming(b, limits, policy, env, start, k);
    Admits(bk, limits, nowk)
  }

  predicate TriesAgain(env: Env, k: nat) {
    env.outcome(k).Raises? && !env.outcome(k).error.Permanent?
  }

  /** Attempt k is made: it and all before it are let through, and those before it failed. */
  ghost predicate Made(b: Breaker, limits: Limits, policy: Policy, env: Env, start: real, k: nat) {
    && k <= policy.maxRetries
    && (forall j: nat :: j <= k ==> LetThrough(b, limits, policy, env, start, j))
    && (forall j: nat :: j < k ==> TriesAgain(env, j))
  }

  /** The first n delays. */
  function Delays(policy: Policy, env: Env, n: nat): real {
    if n == 0 then 0.0 else Delays(policy, env, n - 1) + Delay(policy, env, n - 1)
  }

  /** How many delays a run with this many calls has slept. */
  function Sleeps(calls: nat, end: End): nat {
    if end.CircuitOpen? || calls == 0 then calls else calls - 1
  }

  /** What a run that has made `calls` calls ends as, the breaker and the clock it leaves. */
  predicate EndsWith(b: Breaker, limits: Limits, policy: Policy, env: Env, start: real, calls: nat, run: Trace) {
    match run.end
    case NeverTried => policy.maxRetries < 0 && calls == 0 && (run.b, run.now) == (b, start)
    case CircuitOpen =>
      && calls <= policy.maxRetries && (calls > 0 ==> TriesAgain(env, calls - 1))
      && !LetThrough(b, limits, policy, env, start, calls)
      && (run.b, run.now) == Upcoming(b, limits, policy, env, start, calls)
    case Returned =>
      calls > 0 && env.outcome(calls - 1).Returns?
      && var (last, now) := Upcoming(b, limits, policy, env, start, calls - 1);
         run.b == Succeed(Check(last, limits, now), limits) && run.now == now + env.duration(calls - 1)
    case Failed(error) =>
      calls > 0 && env.outcome(calls - 1) == Raises(error) && (error.Permanent? || calls - 1 == policy.maxRetries)
      && var (last, now) := Upcoming(b, limits, policy, env, start, calls - 1);
         var now1 := now + env.duration(calls - 1);
         run.b == (if error.Permanent? then Check(last, limits, now) else Fail(Check(last, limits, now), limits, now1))
         && run.now == now1
  }

  lemma {:induction false} RunFrom(b: Breaker, limits: Limits, policy: Policy, env: Env, start: real, k: nat)
    requires k <= policy.maxRetries
    requires forall j: nat :: j < k ==> LetThrough(b, limits, policy, env, start, j) && TriesAgain(env, j)
    ensures var (bk, nowk) := Upcoming(b, limits, policy, env, start, k);
            var run := Attempts(bk, limits, policy, env, k, nowk);
            && EndsWith(b, limits, policy, env, start, k + run.calls, run)
            && (forall j: nat :: j < k + run.calls <==> Made(b, limits, policy, env, start, j))
            && Delays(policy, env, k) + run.slept == Delays(policy, env, Sleeps(k + run.calls, run.end))
    decreases policy.maxRetries - k
  {
    hide Delay, Check, Fail, Succeed, Admits;
    var (bk, nowk) := Upcoming(b, limits, policy, env, start, k);
    if !LetThrough(b, limits, policy, env, start, k) {
      assert !Admits(bk, limits, nowk);
      forall j: nat | k <= j ensures !Made(b, limits, policy, env, start, j) {
      }
    } else if TriesAgain(env, k) && k < policy.maxRetries {
      RunFrom(b, limits, policy, env, start, k + 1);
    } else {
      forall j: nat | k < j ensures !Made(b, limits, policy, env, start, j) {
      }
    }
  }

  /** The end of a run, read off its last call. Attempt k is made exactly if it and all before it
      were let through, and all before it raised what is tried again; the run returns exactly
      if the last call made returned, raises exactly what that call raised if it is permanent
      or was the last attempt allowed, and stops at an open circuit exactly if there would
      have been another attempt, which was not let through. */
  lemma EndIff(b: Breaker, limits: Limits, policy: Policy, env: Env, start: real)
    ensures var run := Attempts(b, limits, policy, env, 0, start);
            && EndsWith(b, limits, policy, env, start, run.calls, run)
            && (run.end.Returned? <==> run.calls > 0 && env.outcome(run.calls - 1).Returns?)
            && (forall error :: run.end == Failed(error) <==>
                  run.calls > 0 && env.outcome(run.calls - 1) == Raises(error)
                  && (error.Permanent? || run.calls - 1 == policy.maxRetries))
            && (run.end.CircuitOpen? <==>
                  run.calls <= policy.maxRetries && (run.calls > 0 ==> TriesAgain(env, run.calls - 1)))
            && (run.end.CircuitOpen? ==> !LetThrough(b, limits, policy, env, start, run.calls))
            && (run.end.NeverTried? <==> policy.maxRetries < 0)
            && (forall k: nat :: k < run.calls <==> Made(b, limits, policy, env, start, k))
            && run.slept == Delays(policy, env, Sleeps(run.calls, run.end))
  {
    hide Delay, Check, Fail, Succeed, Admits;
    if policy.maxRetries >= 0 {
      RunFrom(b, limits, policy, env, start, 0);
    }
  }

  // ----- bounds -----

  /** random.random() is in [0, 1). */
  ghost predicate Realistic(policy: Policy, env: Env) {
    policy.baseDelay >= 0.0 && policy.maxDelay >= 0.0
    && forall k :: 0.0 <= env.random(k) < 1.0
  }

  lemma {:induction false} Power2Positive(n: nat)
    ensures Power2(n) > 0.0
  {
    if n > 0 {
      Power2Positive(n - 1);
    }
  }

  lemma JitterBounds(delay: real, random: real)
    requires delay >= 0.0 && 0.0 <= random < 1.0
    ensures 0.5 * delay <= Jittered(delay, random) <= 1.5 * delay
    ensures delay > 0.0 ==> Jittered(delay, random) < 1.5 * delay
  {
    var share, rest := delay * random, delay * (1.0 - random);
    assert share >= 0.0 && rest >= 0.0 && (delay > 0.0 ==> rest > 0.0);
    assert share + rest == delay;
    assert Jittered(delay, random) == 0.5 * delay + share;
  }

  lemma DelayBounds(policy: Policy, env: Env, attempt: nat)
    requires Realistic(policy, env)
    ensures 0.0 <= Delay(policy, env, attempt) <= 1.5 * Backoff(policy, attempt)
    ensures policy.maxDelay > 0.0 ==> Delay(policy, env, attempt) < 1.5 * policy.maxDelay
  {
    hide Jittered;
    Power2Positive(attempt);
    assert policy.baseDelay * Power2(attempt) >= 0.0;
    JitterBounds(Backoff(policy, attempt), env.random(attempt));
  }

  /** All the backoffs from `attempt` on, without the cap and at the cap. */
  function Uncapped(policy: Policy, attempt: nat): real
    requires attempt <= policy.maxRetries
  {
    policy.baseDelay * (Power2(policy.maxRetries) - Power2(attempt))
  }

  function Capped(policy: Policy, attempt: nat): real {
    ((policy.maxRetries - attempt) as real) * policy.maxDelay
  }

  lemma BackoffStep(policy: Policy, attempt: nat)
    requires attempt < policy.maxRetries
    ensures Backoff(policy, attempt) <= Uncapped(policy, attempt) - Uncapped(policy, attempt + 1)
    ensures Backoff(policy, attempt) <= Capped(policy, attempt) - Capped(policy, attempt + 1)
  {
    var base, power, top := policy.baseDelay, Power2(attempt), Power2(policy.maxRetries);
    assert base * (top - power) == base * top - base * power;
    assert base * (top - 2.0 * power) == base * top - 2.0 * (base * power);
  }

  lemma {:induction false} BackoffsPositive(policy: Policy, attempt: nat)
    requires policy.baseDelay >= 0.0 && policy.maxDelay >= 0.0 && attempt <= policy.maxRetries
    ensures Uncapped(policy, attempt) >= 0.0 && Capped(policy, attempt) >= 0.0
    decreases policy.maxRetries - attempt
  {
    if attempt < policy.maxRetries {
      BackoffsPositive(policy, attempt + 1);
      BackoffStep(policy, attempt);
      Power2Positive(attempt);
      assert policy.baseDelay * Power2(attempt) >= 0.0;
    }
  }

  lemma {:induction false} SleepBoundFrom(b: Breaker, limits: Limits, policy: Policy, env: Env, attempt: nat, now: real)
    requires Realistic(policy, env) && attempt <= policy.maxRetries
    ensures Attempts(b, limits, policy, env, attempt, now).slept <= 1.5 * Uncapped(policy, attempt)
    ensures Attempts(b, limits, policy, env, attempt, now).slept <= 1.5 * Capped(policy, attempt)
    decreases policy.maxRetries - attempt
  {
    hide Uncapped, Capped, Delay, Backoff, Check, Fail, Succeed, Admits;
    BackoffsPositive(policy, attempt);
    if Admits(b, limits, now) && env.outcome(attempt).Raises? && !env.outcome(attempt).error.Permanent? && attempt < policy.maxRetries {
      var now1 := now + env.duration(attempt);
      var b2 := Fail(Check(b, limits, now), limits, now1);
      SleepBoundFrom(b2, limits, policy, env, attempt + 1, now1 + Delay(policy, env, attempt) + env.overrun(attempt));
      DelayBounds(policy, env, attempt);
      BackoffStep(policy, attempt);
    }
  }

  /** Whatever happens, the delays asked for add up to at most one and a half times the smaller
      of the whole backoff and the capped one. */
  lemma SleepBound(b: Breaker, limits: Limits, policy: Policy, env: Env, now: real)
    requires Realistic(policy, env) && policy.maxRetries >= 0
    ensures Attempts(b, limits, policy, env, 0, now).slept <=
            1.5 * Min(policy.baseDelay * (Power2(policy.maxRetries) - 1.0), (policy.maxRetries as real) * policy.maxDelay)
  {
    assert Power2(0) == 1.0;
    hide Attempts, Power2;
    SleepBoundFrom(b, limits, policy, env, 0, now);
    assert Uncapped(policy, 0) == policy.baseDelay * (Power2(policy.maxRetries) - 1.0);
  }

  /** The first n backoffs. */
  function Backoffs(policy: Policy, n: nat): real {
    if n == 0 then 0.0 else Backoffs(policy, n - 1) + Backoff(policy, n - 1)
  }

  function Uncut(policy: Policy, n: nat): real {
    policy.baseDelay * Power2(n)
  }

  lemma Doubles(policy: Policy, n: nat)
    requires policy.baseDelay >= 0.0
    ensures Uncut(policy, n + 1) == 2.0 * Uncut(policy, n) && Uncut(policy, n) >= 0.0 && Uncut(policy, 0) == policy.baseDelay
    ensures Backoff(policy, n) == Min(Uncut(policy, n), policy.maxDelay)
  {
    Power2Positive(n);
    NotNegative(policy.baseDelay, Power2(n));
  }

  /** Until the cap is reached they double; from then on each is the cap. */
  lemma {:induction false} BackoffsAre(policy: Policy, n: nat)
    requires policy.baseDelay >= 0.0
    ensures n > 0 && Uncut(policy, n - 1) <= policy.maxDelay ==> Backoffs(policy, n) == Uncut(policy, n) - policy.baseDelay
    ensures Uncut(policy, n) > policy.maxDelay ==> Backoffs(policy, n + 1) == Backoffs(policy, n) + policy.maxDelay
  {
    hide Uncut, Backoff;
    Doubles(policy, n);
    if n > 0 {
      Doubles(policy, n - 1);
      if n > 1 {
        Doubles(policy, n - 2);
        BackoffsAre(policy, n - 1);
      } else {
        assert Backoffs(policy, 0) == 0.0;
      }
    }
  }

  lemma NotNegative(x: real, y: real)
    requires x >= 0.0 && y >= 0.0
    ensures x * y >= 0.0
  {
  }

  lemma {:induction false} DelaysBetween(policy: Policy, env: Env, n: nat)
    requires Realistic(policy, env)
    ensures 0.5 * Backoffs(policy, n) <= Delays(policy, env, n) <= 1.5 * Backoffs(policy, n)
  {
    if n > 0 {
      hide Jittered;
      DelaysBetween(policy, env, n - 1);
      Power2Positive(n - 1);
      NotNegative(policy.baseDelay, Power2(n - 1));
      JitterBounds(Backoff(policy, n - 1), env.random(n - 1));
    }
  }

  /** Whatever happens, what is slept is between half and one and a half times the backoffs, one
      after each failure that was followed by another attempt, or by an open circuit. */
  lemma SleepBetween(b: Breaker, limits: Limits, policy: Policy, env: Env, now: real)
    requires Realistic(policy, env)
    ensures var run := Attempts(b, limits, policy, env, 0, now);
            var n := if run.end.CircuitOpen? || run.calls == 0 then run.calls else run.calls - 1;
            0.5 * Backoffs(policy, n) <= run.slept <= 1.5 * Backoffs(policy, n)
  {
    hide Made, EndsWith, Attempts, Upcoming, Delays, Backoffs;
    EndIff(b, limits, policy, env, now);
    var run := Attempts(b, limits, policy, env, 0, now);
    DelaysBetween(policy, env, Sleeps(run.calls, run.end));
  }

  /** A retry always comes before the breaker's timeout is over. */
  ghost predicate RetriesInTime(limits: Limits, policy: Policy, env: Env) {
    Realistic(policy, env)
    && forall k :: 0.0 <= env.overrun(k) <= limits.timeout - 1.5 * policy.maxDelay
                   && (policy.maxDelay > 0.0 || env.overrun(k) < limits.timeout)
  }

  lemma RetryBeforeTimeout(limits: Limits, policy: Policy, env: Env, attempt: nat)
    requires RetriesInTime(limits, policy, env)
    ensures Delay(policy, env, attempt) + env.overrun(attempt) < limits.timeout
  {
    DelayBounds(policy, env, attempt);
  }

  /** Every counted failure leaves an open circuit, or a closed one with one more failure. */
  lemma {:induction false} CallBoundFrom(b: Breaker, limits: Limits, policy: Policy, env: Env, attempt: nat, now: real)
    requires RetriesInTime(limits, policy, env)
    requires b.state.Closed? && b.failures < limits.failureThreshold && attempt <= policy.maxRetries
    ensures var run := Attempts(b, limits, policy, env, attempt, now);
            && 1 <= run.calls <= policy.maxRetries + 1 - attempt && run.calls <= limits.failureThreshold - b.failures
            && ((forall k :: attempt <= k <= policy.maxRetries ==> env.outcome(k).Raises? && !env.outcome(k).error.Permanent?) ==>
                  run.calls == policy.maxRetries + 1 - attempt || run.calls == limits.failureThreshold - b.failures)
    decreases policy.maxRetries - attempt
  {
    var outcome := env.outcome(attempt);
    if outcome.Raises? && !outcome.error.Permanent? && attempt < policy.maxRetries {
      var now1 := now + env.duration(attempt);
      var b2 := Fail(b, limits, now1);
      var now2 := now1 + Delay(policy, env, attempt) + env.overrun(attempt);
      if b2.state.Closed? {
        CallBoundFrom(b2, limits, policy, env, attempt + 1, now2);
      } else {
        RetryBeforeTimeout(limits, policy, env, attempt);
        assert !Admits(b2, limits, now2);
      }
    }
  }

  /** From a closed circuit with f failures: at most min(max_retries + 1, threshold - f) calls,
      and exactly that many if each of them fails in a way that counts. */
  lemma CallBound(b: Breaker, limits: Limits, policy: Policy, env: Env, now: real)
    requires RetriesInTime(limits, policy, env)
    requires b.state.Closed? && b.failures < limits.failureThreshold && policy.maxRetries >= 0
    ensures var run := Attempts(b, limits, policy, env, 0, now);
            var most := if policy.maxRetries + 1 <= limits.failureThreshold - b.failures then policy.maxRetries + 1
                        else limits.failureThreshold - b.failures;
            && run.calls <= most
            && ((forall k :: 0 <= k <= policy.maxRetries ==> env.outcome(k).Raises? && !env.outcome(k).error.Permanent?) ==>
                  run.calls == most)
  {
    CallBoundFrom(b, limits, policy, env, 0, now);
  }

  /** From an open or half-open circuit there is at most one call, whatever becomes of it. */
  lemma OneProbe(b: Breaker, limits: Limits, policy: Policy, env: Env, now: real)
    requires RetriesInTime(limits, policy, env)
    requires !b.state.Closed?
    ensures var run := Attempts(b, limits, policy, env, 0, now);
            run.calls <= 1 && (run.calls == 0 <==> policy.maxRetries < 0 || !Admits(b, limits, now))
  {
    if policy.maxRetries > 0 && Admits(b, limits, now) && env.outcome(0).Raises? && !env.outcome(0).error.Permanent? {
      var now1 := now + env.duration(0);
      var b2 := Fail(Check(b, limits, now), limits, now1);
      RetryBeforeTimeout(limits, policy, env, 0);
      assert !Admits(b2, limits, now1 + Delay(policy, env, 0) + env.overrun(0));
      assert Attempts(b2, limits, policy, env, 1, now1 + Delay(policy, env, 0) + env.overrun(0)).calls == 0;
    }
  }
}

// Retrying an operation with exponential backoff and jitter.
module RetryPolicy {
  import opened Wrappers

  datatype OperationClass =
    | Authentication | Availability | Booking | ApplicantSubmission | AppointmentSelection
    | PaymentStatus | PaymentConfirmation | SessionResume

  datatype RetryConfig = RetryConfig(maxAttempts: int, baseDelayMs: int, maxDelayMs: int, isIrreversible: bool)

  const ONCE := RetryConfig(1, 0, 0, true)

  function DefaultConfig(c: OperationClass): RetryConfig {
    match c
    case Authentication => RetryConfig(3, 1000, 8000, false)
    case Availability => RetryConfig(3, 2000, 10000, false)
    case Booking => ONCE
    case ApplicantSubmission => ONCE
    case AppointmentSelection => ONCE
    case PaymentConfirmation => ONCE
    case PaymentStatus => RetryConfig(3, 2000, 8000, false)
    case SessionResume => RetryConfig(2, 1500, 5000, false)
  }

  datatype CustomConfig = CustomConfig(
    maxAttempts: Option<int>, baseDelayMs: Option<int>, maxDelayMs: Option<int>, isIrreversible: Option<bool>)

  function Merged(c: OperationClass, custom: CustomConfig): RetryConfig {
    var d := DefaultConfig(c);
    RetryConfig(custom.maxAttempts.GetOr(d.maxAttempts), custom.baseDelayMs.GetOr(d.baseDelayMs),
                custom.maxDelayMs.GetOr(d.maxDelayMs), custom.isIrreversible.GetOr(d.isIrreversible))
  }

  // What an attempt does; transient is the classifier's verdict on its error.
  datatype Attempt<T> = Returns(value: T) | Fails(transient: bool)

  datatype Outcome<T> = Value(value: T) | Raised(attempt: nat) | Exhausted

  // The class decides by its default configuration, whatever the custom one says.
  predicate IsRetryable<T>(a: Attempt<T>, c: OperationClass) {
    a.Fails? && !DefaultConfig(c).isIrreversible && a.transient
  }

  function Power2(n: nat): (p: nat)
    ensures p >= 1
  {
    if n == 0 then 1 else 2 * Power2(n - 1)
  }

  function Min(a: int, b: int): int {
    if a < b then a else b
  }

  function CalculateBackoff(attempt: int, config: RetryConfig, jitter: int): int {
    if attempt <= 1 || config.maxAttempts <= 1 then 0
    else Min(config.baseDelayMs * Power2(attempt - 2) + jitter, config.maxDelayMs)
  }

  // A jitter is the integer part of a number from 0 to below 30 per cent of the base delay.
  predicate PossibleJitter(jitter: int, config: RetryConfig) {
    0 <= jitter && (10 * jitter < 3 * config.baseDelayMs || (jitter == 0 && config.baseDelayMs == 0))
  }

  datatype Report<T> = Report(outcome: Outcome<T>, calls: nat, delays: seq<int>)

  // A run that already made these calls after these delays.
  function Before<T>(calls: nat, delays: seq<int>, rest: Report<T>): Report<T> {
    Report(rest.outcome, calls + rest.calls, delays + rest.delays)
  }

  lemma OneMoreCall<T>(calls: nat, delays: seq<int>, delay: int, rest: Report<T>)
    ensures Before(calls, delays, Before(1, [delay], rest)) == Before(calls + 1, delays + [delay], rest)
  {
    assert delays + ([delay] + rest.delays) == delays + [delay] + rest.delays;
  }

  // The run from a given attempt on.
  function RunFrom<T>(
    behaviour: nat -> Attempt<T>, jitters: nat -> int, c: OperationClass, config: RetryConfig, attempt: nat): Report<T>
    decreases config.maxAttempts - attempt
  {
    if attempt > config.maxAttempts then Report(Exhausted, 0, [])
    else
      match behaviour(attempt)
      case Returns(value) => Report(Value(value), 1, [])
      case Fails(_) =>
        if attempt < config.maxAttempts && IsRetryable(behaviour(attempt), c) then
          Before(1, [CalculateBackoff(attempt + 1, config, jitters(attempt))],
                 RunFrom(behaviour, jitters, c, config, attempt + 1))
        else Report(Raised(attempt), 1, [])
  }

  method Execute<T>(behaviour: nat -> Attempt<T>, jitters: nat -> int, c: OperationClass, custom: CustomConfig)
    returns (outcome: Outcome<T>, calls: nat, delays: seq<int>)
    ensures Report(outcome, calls, delays) == RunFrom(behaviour, jitters, c, Merged(c, custom), 1)
  {
    var config := Merged(c, custom);
    var attempt: nat := 1;
    calls, delays := 0, [];
    assert [] + RunFrom(behaviour, jitters, c, config, 1).delays == RunFrom(behaviour, jitters, c, config, 1).delays;
    while attempt <= config.maxAttempts
      invariant Before(calls, delays, RunFrom(behaviour, jitters, c, config, attempt)) == RunFrom(behaviour, jitters, c, config, 1)
      decreases config.maxAttempts - attempt
    {
      calls := calls + 1;
      var result := behaviour(attempt);
      if result.Returns? {
        return Value(result.value), calls, delays;
      }
      var canRetry := attempt < config.maxAttempts && IsRetryable(result, c);
      if !canRetry {
        return Raised(attempt), calls, delays;
      }
      var delay := CalculateBackoff(attempt + 1, config, jitters(attempt));
      OneMoreCall(calls - 1, delays, delay, RunFrom(behaviour, jitters, c, config, attempt + 1));
      delays := delays + [delay];
      attempt := attempt + 1;
    }
    outcome := Exhausted;
  }

  // ---- How often, and with what result ---------------------------------------------------------

  function OutcomeOf<T>(a: Attempt<T>, attempt: nat): Outcome<T> {
    match a
    case Returns(value) => Value(value)
    case Fails(_) => Raised(attempt)
  }

  // The run stops at the first attempt that returns, cannot be retried, or is the last one.
  lemma {:induction false} StopsAtFirstFinal<T>(
    behaviour: nat -> Attempt<T>, jitters: nat -> int, c: OperationClass, config: RetryConfig, attempt: nat)
    requires attempt <= config.maxAttempts
    ensures var r := RunFrom(behaviour, jitters, c, config, attempt);
            var last := attempt + r.calls - 1;
            && r.calls >= 1 && last <= config.maxAttempts && |r.delays| == r.calls - 1
            && (forall k: nat :: attempt <= k < last ==> IsRetryable(behaviour(k), c))
            && r.outcome == OutcomeOf(behaviour(last), last)
            && (behaviour(last).Fails? ==> last == config.maxAttempts || !IsRetryable(behaviour(last), c))
    decreases config.maxAttempts - attempt
  {
    if attempt == config.maxAttempts || !IsRetryable(behaviour(attempt), c) {
    } else {
      StopsAtFirstFinal(behaviour, jitters, c, config, attempt + 1);
    }
  }

  // It goes past an attempt exactly when that failed with an error classified as transient, its class
  // is none of the four that cannot be undone, and another attempt is left.
  lemma {:induction false} RepeatsExactly<T>(
    behaviour: nat -> Attempt<T>, jitters: nat -> int, c: OperationClass, config: RetryConfig, attempt: nat)
    requires attempt <= config.maxAttempts
    ensures var last := attempt + RunFrom(behaviour, jitters, c, config, attempt).calls - 1;
            && attempt <= last <= config.maxAttempts
            && (forall k: nat :: attempt <= k < last ==>
                  behaviour(k) == Fails(true) && c !in {Booking, ApplicantSubmission, AppointmentSelection, PaymentConfirmation})
            && (behaviour(last) != Fails(true) || last == config.maxAttempts
                || c in {Booking, ApplicantSubmission, AppointmentSelection, PaymentConfirmation})
    decreases config.maxAttempts - attempt
  {
    if attempt == config.maxAttempts || !IsRetryable(behaviour(attempt), c) {
    } else {
      RepeatsExactly(behaviour, jitters, c, config, attempt + 1);
    }
  }

  // The error after the loop is raised exactly when no attempt is configured; otherwise the
  // operation is invoked at least once and at most maxAttempts times.
  lemma InvocationsAreBounded<T>(behaviour: nat -> Attempt<T>, jitters: nat -> int, c: OperationClass, custom: CustomConfig)
    ensures var config := Merged(c, custom);
            var r := RunFrom(behaviour, jitters, c, config, 1);
            && (r.outcome == Exhausted <==> config.maxAttempts < 1)
            && (config.maxAttempts < 1 ==> r.calls == 0)
            && (config.maxAttempts >= 1 ==> 1 <= r.calls <= config.maxAttempts)
  {
    if Merged(c, custom).maxAttempts >= 1 {
      StopsAtFirstFinal(behaviour, jitters, c, Merged(c, custom), 1);
    }
  }

  // An irreversible operation is never repeated, not even by a custom configuration.
  lemma IrreversibleRunsOnce<T>(behaviour: nat -> Attempt<T>, jitters: nat -> int, c: OperationClass, custom: CustomConfig)
    requires c in {Booking, ApplicantSubmission, AppointmentSelection, PaymentConfirmation}
    requires Merged(c, custom).maxAttempts >= 1
    ensures RunFrom(behaviour, jitters, c, Merged(c, custom), 1).calls == 1
  {
    StopsAtFirstFinal(behaviour, jitters, c, Merged(c, custom), 1);
    assert !IsRetryable(behaviour(1), c);
  }

  // ---- Delays --------------------------------------------------------------------------------------

  lemma BackoffGrows(attempt: nat, config: RetryConfig, j1: int, j2: int)
    requires attempt >= 2 && PossibleJitter(j1, config) && PossibleJitter(j2, config)
    ensures CalculateBackoff(attempt, config, j1) <= CalculateBackoff(attempt + 1, config, j2)
  {
    var p, b := Power2(attempt - 2), config.baseDelayMs;
    assert Power2(attempt - 1) == 2 * p && p >= 1;
    assert b * (2 * p) == b * p + b * p && b * p >= b;
  }

  // Up to the maximum the delay starts from the base delay and doubles, apart from the jitter.
  lemma BackoffDoubles(attempt: nat, next: nat, config: RetryConfig)
    requires next == attempt + 1 > 2 && config.maxAttempts >= 2
    ensures exists b: int ::
              && (attempt == 2 ==> b == config.baseDelayMs)
              && (forall j :: CalculateBackoff(attempt, config, j) == if b + j < config.maxDelayMs then b + j else config.maxDelayMs)
              && (forall j :: CalculateBackoff(next, config, j)
                           == if 2 * b + j < config.maxDelayMs then 2 * b + j else config.maxDelayMs)
  {
    var p := Power2(attempt - 2);
    assert Power2(attempt - 1) == 2 * p && config.baseDelayMs * (2 * p) == 2 * (config.baseDelayMs * p);
    assert attempt == 2 ==> p == 1 && config.baseDelayMs * p == config.baseDelayMs;
    var b := config.baseDelayMs * p;
    assert forall j :: CalculateBackoff(attempt, config, j) == Min(b + j, config.maxDelayMs);
  }

  // Between the attempts that the configuration of a class allows: the delays without jitter.
  lemma DefaultDelays<T>(behaviour: nat -> Attempt<T>, c: OperationClass)
    requires forall k :: behaviour(k) == Fails(true)
    ensures var delays := RunFrom(behaviour, (k: nat) => 0, c, Merged(c, CustomConfig(None, None, None, None)), 1).delays;
            delays == match c
                      case Authentication => [1000, 2000]
                      case Availability => [2000, 4000]
                      case PaymentStatus => [2000, 4000]
                      case SessionResume => [1500]
                      case _ => []
  {
    var config := Merged(c, CustomConfig(None, None, None, None));
    assert config == DefaultConfig(c);
    var none := (k: nat) => 0;
    assert Power2(0) == 1 && Power2(1) == 2;
    if !config.isIrreversible {
      assert RunFrom(behaviour, none, c, config, 3).delays == [];
      var second := CalculateBackoff(3, config, 0);
      assert config.maxAttempts == 3 ==> RunFrom(behaviour, none, c, config, 2).delays == [second] + [];
      assert config.maxAttempts == 2 ==> RunFrom(behaviour, none, c, config, 2).delays == [];
    }
  }

  // However many attempts a caller asks for, the delays of a class stay within its own maximum, and
  // reach it.
  lemma DefaultMaximum(c: OperationClass, maxAttempts: int)
    requires maxAttempts >= 2
    ensures CalculateBackoff(6, Merged(c, CustomConfig(Some(maxAttempts), None, None, None)), 0)
         == match c
            case Authentication => 8000
            case Availability => 10000
            case PaymentStatus => 8000
            case SessionResume => 5000
            case _ => 0
  {
    assert Power2(4) == 2 * Power2(3) == 4 * Power2(2) == 8 * Power2(1) == 16 * Power2(0) == 16;
  }

  // For any jitters the delays never shrink and never exceed the maximum.
  lemma {:induction false} DelaysGrowWithinMaximum<T>(
    behaviour: nat -> Attempt<T>, jitters: nat -> int, c: OperationClass, config: RetryConfig, attempt: nat)
    requires attempt >= 1 && forall k :: PossibleJitter(jitters(k), config)
    ensures var delays := RunFrom(behaviour, jitters, c, config, attempt).delays;
            && (delays != [] ==> delays[0] == CalculateBackoff(attempt + 1, config, jitters(attempt)))
            && (forall i :: 0 <= i < |delays| ==> delays[i] <= config.maxDelayMs)
            && (forall i :: 0 < i < |delays| ==> delays[i - 1] <= delays[i])
    decreases config.maxAttempts - attempt
  {
    var r := RunFrom(behaviour, jitters, c, config, attempt);
    if attempt >= config.maxAttempts || !IsRetryable(behaviour(attempt), c) {
    } else {
      DelaysGrowWithinMaximum(behaviour, jitters, c, config, attempt + 1);
      BackoffGrows(attempt + 1, config, jitters(attempt), jitters(attempt + 1));
      var rest := RunFrom(behaviour, jitters, c, config, attempt + 1).delays;
      assert r.delays == [CalculateBackoff(attempt + 1, config, jitters(attempt))] + rest;
    }
  }
}

/**
 * The bounded retry loop with exponential backoff (`withRetry`) and the
 * configuration merge of `createRetryableOperation`.
 *
 * The operation is a script: `op(k)` is the outcome of its k-th call
 * (k = 1, 2, ...). The random jitter of the k-th pause is `jitter(k)`
 * (`Math.random() * 1000` in the program, a value in [0, 1000)). Pauses are
 * recorded, not taken.
 */
module Retry {
  import opened Wrappers

  /** Attempt bound and backoff parameters (milliseconds). */
  datatype RetryConfig = RetryConfig(maxAttempts: int, baseDelay: nat, maxDelay: nat, backoffMultiplier: nat)

  const DefaultRetryConfig: RetryConfig := RetryConfig(3, 1000, 10000, 2)

  /** A `Partial<RetryConfig>`: a field is either supplied or absent. */
  datatype PartialRetryConfig = PartialRetryConfig(
    maxAttempts: Option<int>, baseDelay: Option<nat>, maxDelay: Option<nat>, backoffMultiplier: Option<nat>)

  /** What `withRetry` did: the value it resolved with or the value it threw
      (`None` for `undefined`), how often it called the operation and the
      retry predicate, and the pauses it took between attempts. */
  datatype RetryOutcome<T, E> = Returned(value: T) | Threw(error: Option<E>)

  datatype RetryRun<T, E> = RetryRun(outcome: RetryOutcome<T, E>, calls: nat, predicateCalls: nat, sleeps: seq<real>)

  function Pow(b: nat, e: nat): nat {
    if e == 0 then 1 else b * Pow(b, e - 1)
  }

  function Min(a: nat, b: nat): nat {
    if a <= b then a else b
  }

  /** The pause before the attempt following failed attempt `attempt`,
      without jitter: `min(baseDelay * multiplier^(attempt-1), maxDelay)`. */
  function BackoffDelay(config: RetryConfig, attempt: nat): (d: nat)
    requires attempt >= 1
    ensures d <= config.maxDelay
    ensures d <= config.baseDelay * Pow(config.backoffMultiplier, attempt - 1)
    ensures d == config.maxDelay || d == config.baseDelay * Pow(config.backoffMultiplier, attempt - 1)
  {
    Min(config.baseDelay * Pow(config.backoffMultiplier, attempt - 1), config.maxDelay)
  }

  lemma {:induction false} PowMonotone(b: nat, e: nat)
    requires b >= 1
    ensures Pow(b, e) <= Pow(b, e + 1)
  {
    assert Pow(b, e + 1) == b * Pow(b, e);
    assert b * Pow(b, e) >= 1 * Pow(b, e) by {
      MulMonotone(b, 1, Pow(b, e));
    }
  }

  lemma MulMonotone(a: nat, b: nat, c: nat)
    requires a >= b
    ensures a * c >= b * c
  {
  }

  /** With a multiplier of at least one the pauses never shrink. */
  lemma BackoffNonDecreasing(config: RetryConfig, attempt: nat)
    requires attempt >= 1 && config.backoffMultiplier >= 1
    ensures BackoffDelay(config, attempt) <= BackoffDelay(config, attempt + 1)
  {
    PowMonotone(config.backoffMultiplier, attempt - 1);
    assert config.baseDelay * Pow(config.backoffMultiplier, attempt - 1)
        <= config.baseDelay * Pow(config.backoffMultiplier, attempt) by {
      MulMonotone(Pow(config.backoffMultiplier, attempt), Pow(config.backoffMultiplier, attempt - 1), config.baseDelay);
    }
  }

  /** The default policy pauses one second, then two, and never more than ten. */
  lemma DefaultBackoff()
    ensures BackoffDelay(DefaultRetryConfig, 1) == 1000
    ensures BackoffDelay(DefaultRetryConfig, 2) == 2000
    ensures BackoffDelay(DefaultRetryConfig, 5) == 10000
  {
    assert Pow(2, 4) == 16 by {
      assert Pow(2, 1) == 2;
      assert Pow(2, 2) == 4;
      assert Pow(2, 3) == 8;
    }
  }

  /** The index of the last attempt a run made, counting from `first`. */
  function LastAttempt<T, E>(run: RetryRun<T, E>, first: int): int {
    first + run.calls - 1
  }

  /** The loop of `withRetry` from attempt number `attempt` on, `lastError`
      being the error of the previous attempt (`undefined` before the first). */
  function Attempts<T, E>(op: nat -> Result<T, E>, config: RetryConfig, shouldRetry: E -> bool,
                          jitter: nat -> real, attempt: nat, lastError: Option<E>): (run: RetryRun<T, E>)
    requires attempt >= 1
    decreases config.maxAttempts - attempt + 1
    // no attempt left: the previous error is thrown
    ensures attempt > config.maxAttempts ==> run == RetryRun(Threw(lastError), 0, 0, [])
    ensures attempt <= config.maxAttempts ==> 1 <= run.calls <= config.maxAttempts - attempt + 1
    // one pause between consecutive attempts, each after the formula
    ensures run.calls >= 1 ==> |run.sleeps| == run.calls - 1
    ensures forall k | 0 <= k < |run.sleeps| ::
              run.sleeps[k] == BackoffDelay(config, attempt + k) as real + jitter(attempt + k)
    // every attempt but the last failed and its error was accepted for retry
    ensures forall k | attempt <= k < LastAttempt(run, attempt) :: op(k).Failure? && shouldRetry(op(k).error)
    // the outcome is the last attempt's, unmodified
    ensures run.outcome.Returned? ==> run.calls >= 1 && op(LastAttempt(run, attempt)) == Success(run.outcome.value)
    ensures run.outcome.Threw? && run.calls >= 1 ==>
              && run.outcome.error.Some?
              && op(LastAttempt(run, attempt)) == Failure(run.outcome.error.value)
              && (LastAttempt(run, attempt) == config.maxAttempts || !shouldRetry(run.outcome.error.value))
    // the predicate is consulted after every failed attempt except the final one
    ensures run.calls >= 1 ==>
              run.predicateCalls
                == run.calls - 1
                   + (if run.outcome.Threw? && LastAttempt(run, attempt) < config.maxAttempts then 1 else 0)
  {
    if attempt > config.maxAttempts then RetryRun(Threw(lastError), 0, 0, [])
    else
      match op(attempt)
      case Success(v) => RetryRun(Returned(v), 1, 0, [])
      case Failure(e) =>
        if attempt == config.maxAttempts then RetryRun(Threw(Some(e)), 1, 0, [])
        else if !shouldRetry(e) then RetryRun(Threw(Some(e)), 1, 1, [])
        else
          var pause := BackoffDelay(config, attempt) as real + jitter(attempt);
          var rest := Attempts(op, config, shouldRetry, jitter, attempt + 1, Some(e));
          RetryRun(rest.outcome, rest.calls + 1, rest.predicateCalls + 1, [pause] + rest.sleeps)
  }

  /** `withRetry(operation, config, shouldRetry)`. */
  function WithRetry<T, E>(op: nat -> Result<T, E>, config: RetryConfig, shouldRetry: E -> bool,
                           jitter: nat -> real): (run: RetryRun<T, E>)
    // call-count bounds; no attempt at all when maxAttempts <= 0, and then undefined is thrown
    ensures run.calls <= (if config.maxAttempts > 0 then config.maxAttempts else 0)
    ensures run.calls == 0 <==> config.maxAttempts <= 0
    ensures config.maxAttempts <= 0 ==> run == RetryRun(Threw(None), 0, 0, [])
    // a first-attempt success: one call, no predicate call, no pause
    ensures config.maxAttempts >= 1 && op(1).Success? ==> run == RetryRun(Returned(op(1).value), 1, 0, [])
    // the value returned or thrown is the last executed attempt's
    ensures run.outcome.Returned? ==> op(run.calls) == Success(run.outcome.value)
    ensures run.outcome.Threw? && run.calls >= 1 ==>
              run.outcome.error.Some? && op(run.calls) == Failure(run.outcome.error.value)
    ensures forall k | 1 <= k < run.calls :: op(k).Failure? && shouldRetry(op(k).error)
    // a failure with attempts left is given up on only when the predicate rejects it
    ensures run.outcome.Threw? && run.calls >= 1 ==>
              run.calls == config.maxAttempts || !shouldRetry(run.outcome.error.value)
    // pauses: exactly calls - 1 of them, each the capped backoff plus that attempt's jitter
    ensures run.calls >= 1 ==> |run.sleeps| == run.calls - 1
    ensures forall k | 1 <= k <= |run.sleeps| :: run.sleeps[k - 1] == BackoffDelay(config, k) as real + jitter(k)
    // the predicate is consulted after every failed attempt except the final one
    ensures run.calls >= 1 ==>
              run.predicateCalls
                == run.calls - 1 + (if run.outcome.Threw? && run.calls < config.maxAttempts then 1 else 0)
    ensures run.predicateCalls <= run.calls
    ensures run.predicateCalls == run.calls && run.calls >= 1 ==>
              && run.calls < config.maxAttempts
              && run.outcome.Threw? && run.outcome.error.Some?
              && !shouldRetry(run.outcome.error.value)
  {
    Attempts(op, config, shouldRetry, jitter, 1, None)
  }

  /** With a single attempt a failure is rethrown after one call, without
      consulting the predicate. */
  lemma SingleAttemptFailure<T, E>(op: nat -> Result<T, E>, config: RetryConfig, shouldRetry: E -> bool,
                                   jitter: nat -> real)
    requires config.maxAttempts == 1 && op(1).Failure?
    ensures WithRetry(op, config, shouldRetry, jitter) == RetryRun(Threw(Some(op(1).error)), 1, 0, [])
  {
  }

  /** A predicate that rejects the first error stops the loop after one call
      and one predicate call, however many attempts are allowed. */
  lemma RejectedFirstError<T, E>(op: nat -> Result<T, E>, config: RetryConfig, shouldRetry: E -> bool,
                                 jitter: nat -> real)
    requires config.maxAttempts > 1 && op(1).Failure? && !shouldRetry(op(1).error)
    ensures WithRetry(op, config, shouldRetry, jitter) == RetryRun(Threw(Some(op(1).error)), 1, 1, [])
  {
  }

  /** An operation that always fails, under a predicate that always accepts,
      is called exactly `maxAttempts` times; the last attempt's error is thrown. */
  lemma {:induction false} AlwaysFailing<T, E>(op: nat -> Result<T, E>, config: RetryConfig, shouldRetry: E -> bool,
                                               jitter: nat -> real, attempt: nat, lastError: Option<E>)
    requires 1 <= attempt <= config.maxAttempts
    requires forall k | attempt <= k <= config.maxAttempts :: op(k).Failure? && shouldRetry(op(k).error)
    ensures var run := Attempts(op, config, shouldRetry, jitter, attempt, lastError);
            && run.calls == config.maxAttempts - attempt + 1
            && run.predicateCalls == run.calls - 1
            && run.outcome == Threw(Some(op(config.maxAttempts).error))
    decreases config.maxAttempts - attempt
  {
    if attempt < config.maxAttempts {
      AlwaysFailing(op, config, shouldRetry, jitter, attempt + 1, Some(op(attempt).error));
    }
  }

  /** `{ ...DEFAULT_RETRY_CONFIG, ...config }`: each supplied field wins. */
  function MergeConfig(partial: Option<PartialRetryConfig>): (c: RetryConfig)
    ensures partial == None ==> c == DefaultRetryConfig
    ensures partial.Some? ==>
      && c.maxAttempts == partial.value.maxAttempts.GetOr(DefaultRetryConfig.maxAttempts)
      && c.baseDelay == partial.value.baseDelay.GetOr(DefaultRetryConfig.baseDelay)
      && c.maxDelay == partial.value.maxDelay.GetOr(DefaultRetryConfig.maxDelay)
      && c.backoffMultiplier == partial.value.backoffMultiplier.GetOr(DefaultRetryConfig.backoffMultiplier)
  {
    match partial
    case None => DefaultRetryConfig
    case Some(p) =>
      RetryConfig(p.maxAttempts.GetOr(DefaultRetryConfig.maxAttempts),
                  p.baseDelay.GetOr(DefaultRetryConfig.baseDelay),
                  p.maxDelay.GetOr(DefaultRetryConfig.maxDelay),
                  p.backoffMultiplier.GetOr(DefaultRetryConfig.backoffMultiplier))
  }

  /** Calling the operation built by `createRetryableOperation(op, config,
      shouldRetryFn)`: `withRetry` under the merged configuration, with the
      always-retry predicate when none is supplied. */
  function RunRetryableOperation<T, E>(op: nat -> Result<T, E>, partial: Option<PartialRetryConfig>,
                                       shouldRetryFn: Option<E -> bool>, jitter: nat -> real): (run: RetryRun<T, E>)
    ensures run.calls <= (if MergeConfig(partial).maxAttempts > 0 then MergeConfig(partial).maxAttempts else 0)
    ensures partial == None || partial.value.maxAttempts == None ==> run.calls <= 3
    ensures MergeConfig(partial).maxAttempts >= 1 && op(1).Success? ==>
              run.outcome == Returned(op(1).value) && run.calls == 1
    // without a predicate every failure but the final one is retried
    ensures shouldRetryFn == None && run.outcome.Threw? && run.calls >= 1 ==>
              run.calls == MergeConfig(partial).maxAttempts
  {
    var retry := match shouldRetryFn
                 case Some(f) => f
                 case None => (_: E) => true;
    WithRetry(op, MergeConfig(partial), retry, jitter)
  }
}

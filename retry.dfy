/**
 * `retry_with_backoff` of hkjc_scraper/utils.py: call an operation up to
 * `max_retries + 1` times, sleeping `min(base * 2^k + jitter, max_delay)`
 * milliseconds after the failed attempt k when another attempt follows, and
 * re-raise the last exception when every attempt fails.
 *
 * The operation is an oracle `op(k)` giving the outcome of the k-th call, and
 * `random.randint(0, 1000)` is an oracle `jitter(k)`; the sleeps are recorded
 * instead of performed.
 */
module Retry {
  import opened Strings

  datatype Exception =
    | Raised(message: string)  // whatever the operation raised
    | TypeError                // `raise None`, when no attempt was made
    | ValueError               // `time.sleep` of a negative length

  datatype Attempt<T> = Success(value: T) | Failure(error: Exception)

  datatype Outcome<T> = Returned(value: T) | Threw(error: Exception)

  /** The outcome of a run, the sleeps it made in order, and how many times it called the operation. */
  datatype Trace<T> = Trace(outcome: Outcome<T>, sleeps: seq<int>, calls: nat)

  /** The retry settings of `get_config()`: MAX_RETRIES, RETRY_BASE_DELAY_MS, RETRY_MAX_DELAY_MS. */
  datatype Config = Config(maxRetries: int, baseDelayMs: int, maxDelayMs: int)

  const DefaultConfig: Config := Config(3, 1000, 5000)

  /** Python's `arg or fallback` for an optional integer: None and 0 are falsy. */
  function OrElse(arg: Option<int>, fallback: int): int
  {
    if arg.Some? && arg.value != 0 then arg.value else fallback
  }

  function Pow2(k: nat): nat { if k == 0 then 1 else 2 * Pow2(k - 1) }

  function Min(a: int, b: int): int { if a <= b then a else b }

  /** The wait after the failed attempt `k`. */
  function Delay(base: int, maxDelay: int, k: nat, jitter: int): int
  {
    Min(base * Pow2(k) + jitter, maxDelay)
  }

  ghost predicate JitterInRange(jitter: nat -> int)
  {
    forall k :: 0 <= jitter(k) <= 1000
  }

  /** The run from attempt `k` on, when the last exception so far is `last`. */
  function Run<T>(op: nat -> Attempt<T>, jitter: nat -> int, maxRetries: int, base: int, maxDelay: int,
                  k: nat, last: Exception): Trace<T>
    decreases maxRetries + 1 - k
  {
    if k > maxRetries then Trace(Threw(last), [], 0)
    else match op(k)
      case Success(v) => Trace(Returned(v), [], 1)
      case Failure(e) =>
        if k < maxRetries then
          var d := Delay(base, maxDelay, k, jitter(k));
          if d < 0 then Trace(Threw(ValueError), [], 1)
          else
            var rest := Run(op, jitter, maxRetries, base, maxDelay, k + 1, e);
            Trace(rest.outcome, [d] + rest.sleeps, 1 + rest.calls)
        else Trace(Threw(e), [], 1)
  }

  /** The whole run, with falsy arguments replaced by the configured values. */
  function RetrySpec<T>(op: nat -> Attempt<T>, jitter: nat -> int, maxRetries: Option<int>, baseDelayMs: Option<int>,
                        maxDelayMs: Option<int>, config: Config): Trace<T>
  {
    Run(op, jitter, OrElse(maxRetries, config.maxRetries), OrElse(baseDelayMs, config.baseDelayMs),
        OrElse(maxDelayMs, config.maxDelayMs), 0, TypeError)
  }

  /** utils.py:55-92. */
  method RetryWithBackoff<T>(op: nat -> Attempt<T>, jitter: nat -> int, maxRetries: Option<int>,
                             baseDelayMs: Option<int>, maxDelayMs: Option<int>, config: Config)
    returns (outcome: Outcome<T>, sleeps: seq<int>, calls: nat)
    ensures Trace(outcome, sleeps, calls) == RetrySpec(op, jitter, maxRetries, baseDelayMs, maxDelayMs, config)
  {
    var retries := OrElse(maxRetries, config.maxRetries);
    var base := OrElse(baseDelayMs, config.baseDelayMs);
    var cap := OrElse(maxDelayMs, config.maxDelayMs);
    ghost var whole := Run(op, jitter, retries, base, cap, 0, TypeError);
    var last := TypeError;
    sleeps := [];
    var attempt := 0;
    while attempt <= retries
      invariant attempt == 0 || attempt <= retries + 1
      invariant var rest := Run(op, jitter, retries, base, cap, attempt, last);
        whole == Trace(rest.outcome, sleeps + rest.sleeps, attempt + rest.calls)
      decreases retries + 1 - attempt
    {
      match op(attempt)
      case Success(v) =>
        outcome, calls := Returned(v), attempt + 1;
        return;
      case Failure(e) =>
        last := e;
        if attempt < retries {
          var d := Delay(base, cap, attempt, jitter(attempt));
          if d < 0 {
            outcome, calls := Threw(ValueError), attempt + 1;
            return;
          }
          sleeps := sleeps + [d];
        }
      assert sleeps + Run(op, jitter, retries, base, cap, attempt + 1, last).sleeps == whole.sleeps;
      attempt := attempt + 1;
    }
    outcome, calls := Threw(last), attempt;
  }

  // ---------------------------------------------------------------------------
  // Properties of a run

  /** The operation is called at most `max_retries + 1` times, one sleep separates consecutive
      calls, and every sleep is the capped backoff of its attempt, hence at most `max_delay`. */
  lemma {:induction false} RunSchedule<T>(op: nat -> Attempt<T>, jitter: nat -> int, maxRetries: int, base: int,
                                          maxDelay: int, k: nat, last: Exception)
    ensures var t := Run(op, jitter, maxRetries, base, maxDelay, k, last);
      (t.calls <= if k > maxRetries then 0 else maxRetries + 1 - k) &&
      (|t.sleeps| + 1 == t.calls || (t.calls == 0 && t.sleeps == [])) &&
      (forall j :: 0 <= j < |t.sleeps| ==> t.sleeps[j] == Delay(base, maxDelay, k + j, jitter(k + j))) &&
      (forall j :: 0 <= j < |t.sleeps| ==> 0 <= t.sleeps[j] <= maxDelay)
    decreases maxRetries + 1 - k
  {
    if k <= maxRetries && op(k).Failure? && k < maxRetries && Delay(base, maxDelay, k, jitter(k)) >= 0 {
      RunSchedule(op, jitter, maxRetries, base, maxDelay, k + 1, op(k).error);
    }
  }

  /** A run returns a value only from a successful call, the last one it makes; every call before
      it failed. */
  lemma {:induction false} RunReturnsFirstSuccess<T>(op: nat -> Attempt<T>, jitter: nat -> int, maxRetries: int,
                                                     base: int, maxDelay: int, k: nat, last: Exception)
    ensures var t := Run(op, jitter, maxRetries, base, maxDelay, k, last);
      t.outcome.Returned? ==>
        t.calls >= 1 && op(k + t.calls - 1) == Success(t.outcome.value) &&
        forall j :: k <= j < k + t.calls - 1 ==> op(j).Failure?
    decreases maxRetries + 1 - k
  {
    if k <= maxRetries && op(k).Failure? && k < maxRetries && Delay(base, maxDelay, k, jitter(k)) >= 0 {
      RunReturnsFirstSuccess(op, jitter, maxRetries, base, maxDelay, k + 1, op(k).error);
    }
  }

  /** Conversely, when attempt `s` is the first success and no wait before it is negative, the run
      returns its value after `s + 1` calls, having slept `s` times. */
  lemma {:induction false} RunFirstSuccess<T>(op: nat -> Attempt<T>, jitter: nat -> int, maxRetries: int, base: int,
                                              maxDelay: int, k: nat, last: Exception, s: nat)
    requires k <= s <= maxRetries && op(s).Success?
    requires forall j :: k <= j < s ==> op(j).Failure?
    requires base >= 0 && maxDelay >= 0 && JitterInRange(jitter)
    ensures var t := Run(op, jitter, maxRetries, base, maxDelay, k, last);
      t.outcome == Returned(op(s).value) && t.calls == s + 1 - k && |t.sleeps| == s - k
    decreases s - k
  {
    if k < s {
      assert Delay(base, maxDelay, k, jitter(k)) >= 0;
      RunFirstSuccess(op, jitter, maxRetries, base, maxDelay, k + 1, op(k).error, s);
    }
  }

  /** When every attempt fails and no wait is negative, the operation is called `max_retries + 1`
      times, `max_retries` sleeps separate the calls, and the exception of the last attempt is raised. */
  lemma {:induction false} RunAllFail<T>(op: nat -> Attempt<T>, jitter: nat -> int, maxRetries: int, base: int,
                                         maxDelay: int, k: nat, last: Exception)
    requires k <= maxRetries
    requires forall j :: k <= j <= maxRetries ==> op(j).Failure?
    requires base >= 0 && maxDelay >= 0 && JitterInRange(jitter)
    ensures var t := Run(op, jitter, maxRetries, base, maxDelay, k, last);
      t.outcome == Threw(op(maxRetries).error) && t.calls == maxRetries + 1 - k && |t.sleeps| == maxRetries - k
    decreases maxRetries - k
  {
    if k < maxRetries {
      assert Delay(base, maxDelay, k, jitter(k)) >= 0;
      RunAllFail(op, jitter, maxRetries, base, maxDelay, k + 1, op(k).error);
    }
  }

  /** `raise last_exception` with no attempt made raises TypeError: a negative retry count makes
      `range(max_retries + 1)` empty. */
  lemma NegativeRetriesRaiseTypeError<T>(op: nat -> Attempt<T>, jitter: nat -> int, maxRetries: int, base: int,
                                         maxDelay: int)
    requires maxRetries < 0
    ensures Run(op, jitter, maxRetries, base, maxDelay, 0, TypeError) == Trace(Threw(TypeError), [], 0)
  {
  }

  lemma {:induction false} Pow2Grows(k: nat)
    ensures Pow2(k) >= 1 && Pow2(k + 1) == 2 * Pow2(k)
  {
    if k > 0 {
      Pow2Grows(k - 1);
    }
  }

  /** With a base of at least 1000 ms the jitter cannot undo the doubling, so the waits never
      shrink from one attempt to the next. */
  lemma DelaysNonDecreasing(base: int, maxDelay: int, k: nat, j1: int, j2: int)
    requires base >= 1000 && 0 <= j1 <= 1000 && 0 <= j2 <= 1000
    ensures Delay(base, maxDelay, k, j1) <= Delay(base, maxDelay, k + 1, j2)
  {
    Pow2Grows(k);
    assert base * Pow2(k + 1) == base * Pow2(k) + base * Pow2(k);
    assert base * Pow2(k) >= base;
  }

  /** With the arguments left out (or 0), the configured defaults give at most 4 calls, and every
      wait lies between 1000 ms and 5000 ms. */
  lemma DefaultSchedule<T>(op: nat -> Attempt<T>, jitter: nat -> int, maxRetries: Option<int>)
    requires maxRetries.None? || maxRetries == Some(0)
    requires JitterInRange(jitter)
    ensures var t := RetrySpec(op, jitter, maxRetries, None, None, DefaultConfig);
      t.calls <= 4 && |t.sleeps| <= 3 && forall j :: 0 <= j < |t.sleeps| ==> 1000 <= t.sleeps[j] <= 5000
  {
    RunSchedule(op, jitter, 3, 1000, 5000, 0, TypeError);
    var t := Run(op, jitter, 3, 1000, 5000, 0, TypeError);
    forall j | 0 <= j < |t.sleeps|
      ensures 1000 <= t.sleeps[j]
    {
      Pow2Grows(j);
      assert 1000 * Pow2(j) >= 1000;
    }
  }
}

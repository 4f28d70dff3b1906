/**
 * `withRetry` of the generation service: call the remote model, and when
 * the call fails with a rate-limit error and attempts remain, wait
 * `initialDelay * 2^(attempt-1)` milliseconds and call again.
 *
 * The remote call is a parameter: `call(k)` is the outcome of the k-th call
 * (0-based). Sleeping is not modelled; the delays that would be slept are
 * returned as a list.
 */
module Retry {
  import opened Types
  import opened JsText

  const DefaultMaxRetries: int := 3
  const DefaultInitialDelay: int := 2000
  const MaxRetriesMessage := "Max retries reached. Could not complete the request."

  /** What one call of the remote model does: return a value or throw. */
  datatype Outcome<+T> = Returned(value: T) | Threw(error: Thrown)

  /**
   * The rate-limit test: an `Error` whose message contains "429", the
   * mixed-case literal "RESOURCE_EXHAUStED", or "rate limit".
   */
  predicate IsRateLimitError(e: Thrown)
  {
    e.Error? &&
    (Includes(e.message, "429") || Includes(e.message, "RESOURCE_EXHAUStED") || Includes(e.message, "rate limit"))
  }

  function Pow2(k: nat): (r: nat)
    ensures r >= 1
  {
    if k == 0 then 1 else 2 * Pow2(k - 1)
  }

  /** The delay slept after the k-th failed call (k counted from 1 as in the source). */
  function BackoffDelay(initialDelay: int, attempt: nat): int
    requires attempt >= 1
  {
    initialDelay * Pow2(attempt - 1)
  }

  /** What a run of `withRetry` produced: its result, how many calls it made, and the delays it slept. */
  datatype RetryRun<+T> = RetryRun(result: Result<T, Thrown>, calls: nat, delays: seq<int>)

  /**
   * The loop of `withRetry` from the head of iteration `attempt`, with
   * `delays` slept so far. The first case is the loop exit, which the loop
   * reaches only when it is never entered.
   */
  function RetryFrom<T>(call: nat -> Outcome<T>, maxRetries: int, initialDelay: int, attempt: nat, delays: seq<int>): RetryRun<T>
    decreases maxRetries - attempt
  {
    if attempt >= maxRetries then
      RetryRun(Err(Error(MaxRetriesMessage)), attempt, delays)
    else
      match call(attempt)
      case Returned(v) => RetryRun(Ok(v), attempt + 1, delays)
      case Threw(e) =>
        if IsRateLimitError(e) && attempt + 1 < maxRetries then
          RetryFrom(call, maxRetries, initialDelay, attempt + 1, delays + [BackoffDelay(initialDelay, attempt + 1)])
        else
          RetryRun(Err(e), attempt + 1, delays)
  }

  /** A whole run of `withRetry`. */
  function RunRetry<T>(call: nat -> Outcome<T>, maxRetries: int, initialDelay: int): RetryRun<T>
  {
    RetryFrom(call, maxRetries, initialDelay, 0, [])
  }

  /** `withRetry` itself: the source's while loop over `attempt`. */
  method WithRetry<T>(call: nat -> Outcome<T>, maxRetries: int, initialDelay: int)
    returns (result: Result<T, Thrown>, calls: nat, delays: seq<int>)
    ensures RetryRun(result, calls, delays) == RunRetry(call, maxRetries, initialDelay)
  {
    var attempt: nat := 0;
    delays := [];
    while attempt < maxRetries
      invariant attempt == 0 || attempt < maxRetries
      invariant RetryFrom(call, maxRetries, initialDelay, attempt, delays) == RunRetry(call, maxRetries, initialDelay)
    {
      var outcome := call(attempt);
      match outcome {
        case Returned(v) =>
          return Ok(v), attempt + 1, delays;
        case Threw(e) =>
          attempt := attempt + 1;
          var isRateLimitError := IsRateLimitError(e);
          if isRateLimitError && attempt < maxRetries {
            delays := delays + [BackoffDelay(initialDelay, attempt)];
          } else {
            return Err(e), attempt, delays;
          }
      }
    }
    return Err(Error(MaxRetriesMessage)), attempt, delays;
  }

  /** The calls before `n` all failed with rate-limit errors. */
  predicate RateLimitedBefore<T>(call: nat -> Outcome<T>, n: nat)
  {
    forall k: nat :: k < n ==> call(k).Threw? && IsRateLimitError(call(k).error)
  }

  /** The delays are the exponential backoff sequence from `initialDelay`. */
  predicate Backoff(initialDelay: int, delays: seq<int>)
  {
    forall k :: 0 <= k < |delays| ==> delays[k] == initialDelay * Pow2(k)
  }

  lemma {:induction false} RetryFromContract<T>(call: nat -> Outcome<T>, maxRetries: int, initialDelay: int, attempt: nat, delays: seq<int>)
    requires attempt == 0 || attempt < maxRetries
    requires |delays| == attempt && Backoff(initialDelay, delays)
    requires RateLimitedBefore(call, attempt)
    ensures var run := RetryFrom(call, maxRetries, initialDelay, attempt, delays);
      && (maxRetries <= 0 ==> run == RetryRun(Err(Error(MaxRetriesMessage)), 0, []))
      && (maxRetries > 0 ==>
            && attempt < run.calls <= maxRetries
            && |run.delays| == run.calls - 1
            && Backoff(initialDelay, run.delays)
            && RateLimitedBefore(call, run.calls - 1)
            && (match call(run.calls - 1)
                case Returned(v) => run.result == Ok(v)
                case Threw(e) => run.result == Err(e) && (!IsRateLimitError(e) || run.calls == maxRetries)))
    decreases maxRetries - attempt
  {
    if attempt < maxRetries && call(attempt).Threw? {
      var e := call(attempt).error;
      if IsRateLimitError(e) && attempt + 1 < maxRetries {
        var delays' := delays + [BackoffDelay(initialDelay, attempt + 1)];
        assert Backoff(initialDelay, delays');
        RetryFromContract(call, maxRetries, initialDelay, attempt + 1, delays');
      }
    }
  }

  /**
   * The contract of `withRetry`: with `maxRetries <= 0` no call is made and
   * the "max retries" error is thrown; otherwise between 1 and `maxRetries`
   * calls are made, every call but the last failed with a rate-limit error
   * and was followed by the backoff delay, and the last call decides the
   * result: its value, or its error, which is either not a rate-limit error
   * or came from the last permitted attempt.
   */
  lemma RetryContract<T>(call: nat -> Outcome<T>, maxRetries: int, initialDelay: int)
    ensures var run := RunRetry(call, maxRetries, initialDelay);
      && (maxRetries <= 0 ==> run == RetryRun(Err(Error(MaxRetriesMessage)), 0, []))
      && (maxRetries > 0 ==>
            && 1 <= run.calls <= maxRetries
            && |run.delays| == run.calls - 1
            && Backoff(initialDelay, run.delays)
            && RateLimitedBefore(call, run.calls - 1)
            && (match call(run.calls - 1)
                case Returned(v) => run.result == Ok(v)
                case Threw(e) => run.result == Err(e) && (!IsRateLimitError(e) || run.calls == maxRetries)))
  {
    RetryFromContract(call, maxRetries, initialDelay, 0, []);
  }

  /** The first successful call wins: if call `k` returns and every earlier call was rate-limited, the run returns that value after `k + 1` calls. */
  lemma FirstSuccessWins<T>(call: nat -> Outcome<T>, maxRetries: int, initialDelay: int, k: nat)
    requires k < maxRetries && call(k).Returned? && RateLimitedBefore(call, k)
    ensures RunRetry(call, maxRetries, initialDelay).result == Ok(call(k).value)
    ensures RunRetry(call, maxRetries, initialDelay).calls == k + 1
  {
    RetryContract(call, maxRetries, initialDelay);
  }

  /** A non-rate-limit error is rethrown straight after the call that raised it: no further call is made. */
  lemma OtherErrorIsRethrown<T>(call: nat -> Outcome<T>, maxRetries: int, initialDelay: int, k: nat)
    requires k < maxRetries && call(k).Threw? && !IsRateLimitError(call(k).error) && RateLimitedBefore(call, k)
    ensures RunRetry(call, maxRetries, initialDelay).result == Err(call(k).error)
    ensures RunRetry(call, maxRetries, initialDelay).calls == k + 1
  {
    RetryContract(call, maxRetries, initialDelay);
  }

  /** With the defaults, two rate-limit errors then a success: three calls, delays of 2000 ms and 4000 ms, the success returned. */
  lemma TwoRateLimitsThenSuccess<T>(v: T)
    ensures var call := (k: nat) => if k < 2 then Threw(Error("429 Too Many Requests")) else Returned(v);
      RunRetry(call, DefaultMaxRetries, DefaultInitialDelay) == RetryRun(Ok(v), 3, [2000, 4000])
  {
    var call := (k: nat) => if k < 2 then Threw(Error("429 Too Many Requests")) else Returned(v);
    assert OccursAt("429 Too Many Requests", "429", 0);
    assert IsRateLimitError(Error("429 Too Many Requests"));
  }

  /** A rate-limit error on every call: the third (last) call's error is rethrown after delays of 2000 ms and 4000 ms. */
  lemma RateLimitedThroughout(message: string)
    requires Includes(message, "rate limit")
    ensures var call := (k: nat) => Threw(Error(message));
      RunRetry<int>(call, DefaultMaxRetries, DefaultInitialDelay) == RetryRun(Err(Error(message)), 3, [2000, 4000])
  {
  }

  /**
   * The status literal is compared case-sensitively, so a message carrying
   * only the upper-case status "RESOURCE_EXHAUSTED" (no "429", no
   * "rate limit") is not treated as a rate-limit error.
   */
  lemma UpperCaseStatusAloneIsNotRetried(s: string)
    requires s == "RESOURCE_EXHAUSTED"
    ensures !IsRateLimitError(Error(s))
  {
    assert !Includes(s, "RESOURCE_EXHAUStED") by {
      assert s[15] != "RESOURCE_EXHAUStED"[15];
      ExcludedBySameLength(s, "RESOURCE_EXHAUStED");
    }
    assert !Includes(s, "429") by {
      ExcludedByChar(s, "429", '4');
    }
    assert !Includes(s, "rate limit") by {
      ExcludedByChar(s, "rate limit", 'r');
    }
  }
}

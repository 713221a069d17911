/** `retry` from src/utils/retry.ts: re-invoke an operation while it throws an
    error the predicate calls retryable, waiting `retryDelay * 2^attempt`
    between attempts, for at most `maxRetries` calls.

    The operation is a script: `fn(k)` is the completion of its k-th call
    (k from 0). `setTimeout` becomes the list of delays requested. */
module Retry {
  import opened Js

  /** Options; a field left undefined takes its default. */
  datatype RetryOptions = RetryOptions(
    maxRetries: Option<int>,
    retryDelay: Option<int>,
    shouldRetry: Option<Thrown -> bool>)

  const NoOptions := RetryOptions(None, None, None)
  const DefaultMaxRetries := 3
  const DefaultRetryDelay := 1000

  /** The numeric `status` of a thrown value, None when it is undefined or
      not a number (then both comparisons of the default predicate fail). */
  function StatusOf(error: Thrown): Option<int> {
    match error
    case ApiErr(e) => Some(e.status)
    case JsErr(_, _) => None
    case Raw(v) =>
      if Nullish(v) then None
      else match Field(v, "status")
        case JNum(n) => Some(n)
        case _ => None
  }

  /** The default predicate: `error.status >= 500 || error.status === 429`. */
  function DefaultShouldRetry(error: Thrown): (retry: bool)
    ensures error.JsErr? ==> !retry
    ensures error.ApiErr? ==> (retry <==> error.apiError.status >= 500 || error.apiError.status == 429)
  {
    match StatusOf(error)
    case Some(s) => s >= 500 || s == 429
    case None => false
  }

  function MaxRetriesOf(o: RetryOptions): int {
    match o.maxRetries case Some(m) => m case None => DefaultMaxRetries
  }

  function RetryDelayOf(o: RetryOptions): int {
    match o.retryDelay case Some(d) => d case None => DefaultRetryDelay
  }

  function ShouldRetryOf(o: RetryOptions): Thrown -> bool {
    match o.shouldRetry case Some(p) => p case None => (e: Thrown) => DefaultShouldRetry(e)
  }

  function Pow2(k: nat): (r: nat)
    ensures r >= 1
  {
    if k == 0 then 1 else 2 * Pow2(k - 1)
  }

  /** What one run of `retry` does: how it settles, how many times it called
      the operation and which delays it asked `setTimeout` for. */
  datatype Run<T> = Run(completion: Result<T>, calls: nat, delays: seq<int>)

  /** Reference definition of the loop from attempt `k` on. When no attempt is
      left the loop falls through to `throw lastError`, which is only reached
      with `lastError` still undefined. */
  function RetryRun<T>(fn: nat -> Result<T>, maxRetries: int, retryDelay: int,
                       shouldRetry: Thrown -> bool, k: nat): (r: Run<T>)
    ensures k >= maxRetries ==> r == Run(Throw(Raw(JUndefined)), 0, [])
    ensures k < maxRetries ==> 1 <= r.calls <= maxRetries - k && |r.delays| == r.calls - 1
    decreases maxRetries - k
  {
    if k >= maxRetries then Run(Throw(Raw(JUndefined)), 0, [])
    else match fn(k)
      case Ok(v) => Run(Ok(v), 1, [])
      case Throw(e) =>
        if !shouldRetry(e) || k == maxRetries - 1 then Run(Throw(e), 1, [])
        else
          var rest := RetryRun(fn, maxRetries, retryDelay, shouldRetry, k + 1);
          Run(rest.completion, rest.calls + 1, [retryDelay * Pow2(k)] + rest.delays)
  }

  /** The `for` loop of `retry`, proved equal to the reference run. */
  method Retry<T>(fn: nat -> Result<T>, options: RetryOptions)
    returns (completion: Result<T>, calls: nat, delays: seq<int>)
    ensures Run(completion, calls, delays)
         == RetryRun(fn, MaxRetriesOf(options), RetryDelayOf(options), ShouldRetryOf(options), 0)
  {
    var maxRetries, retryDelay, shouldRetry :=
      MaxRetriesOf(options), RetryDelayOf(options), ShouldRetryOf(options);
    ghost var whole := RetryRun(fn, maxRetries, retryDelay, shouldRetry, 0);
    var lastError: Thrown := Raw(JUndefined);
    calls, delays := 0, [];
    var attempt: nat := 0;
    while attempt < maxRetries
      invariant calls == attempt && |delays| == attempt
      invariant attempt > 0 ==> attempt < maxRetries
      invariant whole == Prefixed(calls, delays, RetryRun(fn, maxRetries, retryDelay, shouldRetry, attempt))
      invariant attempt == 0 ==> lastError == Raw(JUndefined)
      decreases maxRetries - attempt
    {
      calls := calls + 1;
      var outcome := fn(attempt);
      RunStep(fn, maxRetries, retryDelay, shouldRetry, attempt, calls - 1, delays);
      ghost var rest := RetryRun(fn, maxRetries, retryDelay, shouldRetry, attempt + 1);
      if outcome.Ok? {
        return outcome, calls, delays;
      }
      lastError := outcome.thrown;
      if !shouldRetry(outcome.thrown) || attempt == maxRetries - 1 {
        return outcome, calls, delays;
      }
      delays := delays + [retryDelay * Pow2(attempt)];
      assert whole == Prefixed(calls, delays, rest);
      attempt := attempt + 1;
    }
    completion := Throw(lastError);
  }

  /** `rest`, preceded by `calls` calls that asked for `delays`. */
  function Prefixed<T>(calls: nat, delays: seq<int>, rest: Run<T>): Run<T> {
    Run(rest.completion, calls + rest.calls, delays + rest.delays)
  }

  /** Attempt `k` ends the run: it returned, its error is not retryable, or
      it was the last one allowed. */
  predicate Stops<T>(r: Result<T>, shouldRetry: Thrown -> bool, k: nat, maxRetries: int) {
    r.Ok? || !shouldRetry(r.thrown) || k == maxRetries - 1
  }

  /** One attempt of the reference run: it either ends the run or defers
      to the next attempt after one delay. */
  lemma RunStep<T>(fn: nat -> Result<T>, maxRetries: int, retryDelay: int, shouldRetry: Thrown -> bool, k: nat,
                   calls: nat, delays: seq<int>)
    requires k < maxRetries
    ensures Stops(fn(k), shouldRetry, k, maxRetries) ==>
      Prefixed(calls, delays, RetryRun(fn, maxRetries, retryDelay, shouldRetry, k)) == Run(fn(k), calls + 1, delays)
    ensures !Stops(fn(k), shouldRetry, k, maxRetries) ==>
      Prefixed(calls, delays, RetryRun(fn, maxRetries, retryDelay, shouldRetry, k))
      == Prefixed(calls + 1, delays + [retryDelay * Pow2(k)], RetryRun(fn, maxRetries, retryDelay, shouldRetry, k + 1))
  {
    if !Stops(fn(k), shouldRetry, k, maxRetries) {
      var rest := RetryRun(fn, maxRetries, retryDelay, shouldRetry, k + 1);
      assert delays + ([retryDelay * Pow2(k)] + rest.delays) == (delays + [retryDelay * Pow2(k)]) + rest.delays;
    } else {
      assert delays + [] == delays;
    }
  }

  // ---------------------------------------------------------------------
  // Properties of a run

  /** With no attempt allowed, nothing is called and `undefined` is thrown. */
  lemma NoAttemptsThrowsUndefined<T>(fn: nat -> Result<T>, maxRetries: int, retryDelay: int,
                                     shouldRetry: Thrown -> bool)
    requires maxRetries <= 0
    ensures RetryRun(fn, maxRetries, retryDelay, shouldRetry, 0) == Run(Throw(Raw(JUndefined)), 0, [])
  {
  }

  /** At most `maxRetries - k` calls, at least one, and one delay fewer than calls. */
  lemma {:induction false} CallsBounded<T>(fn: nat -> Result<T>, maxRetries: int, retryDelay: int,
                                           shouldRetry: Thrown -> bool, k: nat)
    requires k < maxRetries
    ensures var r := RetryRun(fn, maxRetries, retryDelay, shouldRetry, k);
      1 <= r.calls <= maxRetries - k && |r.delays| == r.calls - 1
    decreases maxRetries - k
  {
    match fn(k)
    case Ok(_) =>
    case Throw(e) =>
      if shouldRetry(e) && k != maxRetries - 1 {
        CallsBounded(fn, maxRetries, retryDelay, shouldRetry, k + 1);
      }
  }

  /** The j-th delay waits `retryDelay * 2^(k+j)`: exponential backoff. */
  lemma {:induction false} DelaySchedule<T>(fn: nat -> Result<T>, maxRetries: int, retryDelay: int,
                                            shouldRetry: Thrown -> bool, k: nat)
    ensures forall j :: 0 <= j < |RetryRun(fn, maxRetries, retryDelay, shouldRetry, k).delays| ==>
      RetryRun(fn, maxRetries, retryDelay, shouldRetry, k).delays[j] == retryDelay * Pow2(k + j)
    decreases maxRetries - k
  {
    if k < maxRetries && fn(k).Throw? && shouldRetry(fn(k).thrown) && k != maxRetries - 1 {
      DelaySchedule(fn, maxRetries, retryDelay, shouldRetry, k + 1);
      var rest := RetryRun(fn, maxRetries, retryDelay, shouldRetry, k + 1);
      var r := RetryRun(fn, maxRetries, retryDelay, shouldRetry, k);
      assert r.delays == [retryDelay * Pow2(k)] + rest.delays;
      forall j | 0 <= j < |r.delays|
        ensures r.delays[j] == retryDelay * Pow2(k + j)
      {
        if j == 0 {
          assert k + j == k;
        } else {
          var i := j - 1;
          assert 0 <= i < |rest.delays|;
          assert rest.delays[i] == retryDelay * Pow2(k + 1 + i);
          assert r.delays[j] == rest.delays[i];
          assert k + 1 + i == k + j;
        }
      }
    }
  }

  /** Every call but the last threw an error the predicate accepted. */
  lemma {:induction false} EarlierCallsFailedRetryably<T>(fn: nat -> Result<T>, maxRetries: int,
                                                          retryDelay: int, shouldRetry: Thrown -> bool,
                                                          k: nat)
    ensures var r := RetryRun(fn, maxRetries, retryDelay, shouldRetry, k);
      forall j :: k <= j < k + r.calls - 1 ==> fn(j).Throw? && shouldRetry(fn(j).thrown)
    decreases maxRetries - k
  {
    if k < maxRetries && fn(k).Throw? && shouldRetry(fn(k).thrown) && k != maxRetries - 1 {
      EarlierCallsFailedRetryably(fn, maxRetries, retryDelay, shouldRetry, k + 1);
    }
  }

  /** The run settles exactly as its last call did (value returned unchanged,
      error rethrown unchanged), and it stops there because that call
      returned, its error was not retryable, or it was the last one allowed. */
  lemma {:induction false} LastCallDecides<T>(fn: nat -> Result<T>, maxRetries: int, retryDelay: int,
                                              shouldRetry: Thrown -> bool, k: nat)
    requires k < maxRetries
    ensures var r := RetryRun(fn, maxRetries, retryDelay, shouldRetry, k);
      var last := k + r.calls - 1;
      last >= k && r.completion == fn(last) &&
      (fn(last).Ok? || !shouldRetry(fn(last).thrown) || last == maxRetries - 1)
    decreases maxRetries - k
  {
    CallsBounded(fn, maxRetries, retryDelay, shouldRetry, k);
    if fn(k).Throw? && shouldRetry(fn(k).thrown) && k != maxRetries - 1 {
      LastCallDecides(fn, maxRetries, retryDelay, shouldRetry, k + 1);
    }
  }

  /** A first call that returns ends the run at once, with its value and no delay. */
  lemma FirstSuccessReturned<T>(fn: nat -> Result<T>, maxRetries: int, retryDelay: int,
                                shouldRetry: Thrown -> bool)
    requires 0 < maxRetries && fn(0).Ok?
    ensures RetryRun(fn, maxRetries, retryDelay, shouldRetry, 0) == Run(fn(0), 1, [])
  {
  }

  /** An error the predicate rejects is rethrown after one call, with no delay. */
  lemma RejectedErrorRethrownAtOnce<T>(fn: nat -> Result<T>, maxRetries: int, retryDelay: int,
                                       shouldRetry: Thrown -> bool)
    requires 0 < maxRetries && fn(0).Throw? && !shouldRetry(fn(0).thrown)
    ensures RetryRun(fn, maxRetries, retryDelay, shouldRetry, 0) == Run(fn(0), 1, [])
  {
  }

  /** With the defaults, an operation that always fails retryably is called
      three times and waits 1000 ms, then 2000 ms. */
  lemma {:induction false} DefaultsAlwaysRetryable<T>(fn: nat -> Result<T>)
    requires forall k :: fn(k).Throw? && DefaultShouldRetry(fn(k).thrown)
    ensures RetryRun(fn, MaxRetriesOf(NoOptions), RetryDelayOf(NoOptions), ShouldRetryOf(NoOptions), 0)
         == Run(fn(2), 3, [1000, 2000])
  {
    var p := ShouldRetryOf(NoOptions);
    assert p(fn(0).thrown) && p(fn(1).thrown);
    var r2 := RetryRun(fn, 3, 1000, p, 2);
    assert r2 == Run(fn(2), 1, []);
    var r1 := RetryRun(fn, 3, 1000, p, 1);
    assert r1 == Run(fn(2), 2, [2000]);
  }
}

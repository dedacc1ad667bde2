/**
 * The retry middleware every Graph client is built with: it calls the rest of
 * the middleware chain, and when that throws an error whose status is
 * retryable it waits with exponential back-off and tries again, up to
 * `maxRetries` retries. The chain is an oracle `next` that answers the k-th
 * call (k = 0, 1, ...); the timer race that turns a hung call into a
 * 'Request timeout' error is part of what the oracle answers.
 */
module GraphClient {
  import opened Wrappers
  import opened Json

  datatype RetryOptions = RetryOptions(
    maxRetries: int, retryDelay: int, maxRetryDelay: int, retryableStatusCodes: seq<int>)

  const DefaultRetryOptions := RetryOptions(3, 1000, 5000, [408, 429, 500, 502, 503, 504])

  /** The per-call time limit of the timer race, in milliseconds. */
  const DefaultTimeout := 30000

  /** An error thrown by the chain, with its `statusCode` and `code` properties. */
  datatype Thrown = Thrown(message: string, statusCode: Value, code: Value)

  /** What one call of the chain does. */
  datatype Attempt = Resolved(response: Value) | Rejected(error: Thrown)

  /**
   * How the middleware ends: with the response, or by throwing. `Threw(None)`
   * is `throw lastError` with `lastError` still undefined.
   */
  datatype Outcome = Returned(response: Value) | Threw(error: Option<Thrown>)

  /** The outcome, how many times the chain was called, and the waits in between, in order. */
  datatype Run = Run(outcome: Outcome, calls: nat, delays: seq<int>)

  /** `error.statusCode || error.code`. */
  function StatusOf(e: Thrown): Value {
    if Truthy(e.statusCode) then e.statusCode else e.code
  }

  /** `retryableStatusCodes.includes(status)`: only a number can match. */
  predicate Retryable(opts: RetryOptions, status: Value) {
    status.Num? && status.n in opts.retryableStatusCodes
  }

  /** `Math.pow(2, k)`. */
  function Pow2(k: nat): nat {
    if k == 0 then 1 else 2 * Pow2(k - 1)
  }

  /** `Math.min(retryDelay * Math.pow(2, attempts), maxRetryDelay)`. */
  function Delay(opts: RetryOptions, attempts: nat): int {
    var backoff := opts.retryDelay * Pow2(attempts);
    if backoff < opts.maxRetryDelay then backoff else opts.maxRetryDelay
  }

  /**
   * The middleware from the `k`-th call on, `last` being the last error seen:
   * the specification the loop of `Retry` is proved against.
   */
  function RunFrom(opts: RetryOptions, next: nat -> Attempt, k: nat, last: Option<Thrown>): Run
    decreases opts.maxRetries + 1 - k
  {
    if k > opts.maxRetries then Run(Threw(last), 0, [])
    else
      match next(k)
      case Resolved(v) => Run(Returned(v), 1, [])
      case Rejected(e) =>
        if !Retryable(opts, StatusOf(e)) || k == opts.maxRetries then Run(Threw(Some(e)), 1, [])
        else
          var rest := RunFrom(opts, next, k + 1, Some(e));
          Run(rest.outcome, rest.calls + 1, [Delay(opts, k)] + rest.delays)
  }

  /** The whole middleware run on one request. */
  function Middleware(opts: RetryOptions, next: nat -> Attempt): Run {
    RunFrom(opts, next, 0, None)
  }

  /**
   * The middleware's loop. `attempts` counts the retries made so far; the
   * sleep between calls is recorded in `delays` instead of being awaited.
   */
  method Retry(opts: RetryOptions, next: nat -> Attempt) returns (outcome: Outcome, calls: nat, delays: seq<int>)
    ensures Run(outcome, calls, delays) == Middleware(opts, next)
  {
    var attempts: nat := 0;
    var lastError: Option<Thrown> := None;
    calls, delays := 0, [];
    while attempts <= opts.maxRetries
      invariant calls == attempts && |delays| == attempts
      invariant var rest := RunFrom(opts, next, attempts, lastError);
        Middleware(opts, next) == Run(rest.outcome, calls + rest.calls, delays + rest.delays)
      decreases opts.maxRetries + 1 - attempts
    {
      var attempt := next(attempts);
      calls := calls + 1;
      match attempt
      case Resolved(response) =>
        outcome := Returned(response);
        return;
      case Rejected(error) =>
        lastError := Some(error);
        var statusCode := StatusOf(error);
        if !Retryable(opts, statusCode) || attempts == opts.maxRetries {
          outcome := Threw(Some(error));
          return;
        }
        var delay := Delay(opts, attempts);
        ghost var before := delays;
        delays := delays + [delay];
        attempts := attempts + 1;
        assert delays + RunFrom(opts, next, attempts, lastError).delays
          == before + ([delay] + RunFrom(opts, next, attempts, lastError).delays);
    }
    outcome := Threw(lastError);
  }

  /** The answer of one call, as the middleware passes it on when it stops there. */
  function Settle(a: Attempt): Outcome {
    match a
    case Resolved(v) => Returned(v)
    case Rejected(e) => Threw(Some(e))
  }

  /** Whether a call failed with an error the middleware retries. */
  predicate RetryableFailure(opts: RetryOptions, a: Attempt) {
    a.Rejected? && Retryable(opts, StatusOf(a.error))
  }

  /**
   * From the `k`-th call on: at most `maxRetries + 1 - k` calls; one wait
   * between consecutive calls, the i-th of them the back-off of retry `k + i`;
   * every call but the last failed with a retryable error; the last call
   * failed with a retryable error only if no retry was left; and the outcome
   * is what the last call gave.
   */
  lemma {:induction false} RunFromShape(opts: RetryOptions, next: nat -> Attempt, k: nat, last: Option<Thrown>)
    requires k <= opts.maxRetries
    ensures var r := RunFrom(opts, next, k, last);
      && 1 <= r.calls <= opts.maxRetries + 1 - k
      && |r.delays| == r.calls - 1
      && (forall i :: 0 <= i < |r.delays| ==> r.delays[i] == Delay(opts, k + i))
      && (forall i :: k <= i < k + r.calls - 1 ==> RetryableFailure(opts, next(i)))
      && (RetryableFailure(opts, next(k + r.calls - 1)) ==> r.calls == opts.maxRetries + 1 - k)
      && r.outcome == Settle(next(k + r.calls - 1))
    decreases opts.maxRetries + 1 - k
  {
    var r := RunFrom(opts, next, k, last);
    if next(k).Rejected? && Retryable(opts, StatusOf(next(k).error)) && k < opts.maxRetries {
      var e := next(k).error;
      var rest := RunFrom(opts, next, k + 1, Some(e));
      RunFromShape(opts, next, k + 1, Some(e));
      assert r.delays == [Delay(opts, k)] + rest.delays;
      forall i | 0 <= i < |r.delays| ensures r.delays[i] == Delay(opts, k + i) {
        if i > 0 {
          assert r.delays[i] == rest.delays[i - 1];
        }
      }
    }
  }

  /**
   * The middleware calls the chain at most `maxRetries + 1` times, waits once
   * between consecutive calls, and passes on what the last call gave. It stops
   * at the first success or non-retryable error: every call before the last
   * failed retryably, and a retryable failure ends the run only when it is
   * the `maxRetries + 1`-th call. It only
   * throws `undefined` when `maxRetries` is negative and the chain is never called.
   */
  lemma MiddlewareShape(opts: RetryOptions, next: nat -> Attempt)
    ensures var r := Middleware(opts, next);
      && (opts.maxRetries < 0 ==> r == Run(Threw(None), 0, []))
      && (opts.maxRetries >= 0 ==>
        && 1 <= r.calls <= opts.maxRetries + 1
        && |r.delays| == r.calls - 1
        && (forall i :: 0 <= i < |r.delays| ==> r.delays[i] == Delay(opts, i))
        && (forall i :: 0 <= i < r.calls - 1 ==> RetryableFailure(opts, next(i)))
        && (RetryableFailure(opts, next(r.calls - 1)) ==> r.calls == opts.maxRetries + 1)
        && r.outcome == Settle(next(r.calls - 1)))
  {
    if opts.maxRetries >= 0 {
      RunFromShape(opts, next, 0, None);
    }
  }

  /** Each wait is capped at `maxRetryDelay`, and with a non-negative base delay the waits never shrink. */
  lemma {:induction false} DelayBounds(opts: RetryOptions, i: nat, j: nat)
    requires i <= j
    ensures Delay(opts, i) <= opts.maxRetryDelay
    ensures opts.retryDelay >= 0 ==> Delay(opts, i) <= Delay(opts, j)
  {
    if i < j {
      DelayBounds(opts, i, j - 1);
      assert Pow2(j) == 2 * Pow2(j - 1);
      if opts.retryDelay >= 0 {
        assert opts.retryDelay * Pow2(j - 1) <= opts.retryDelay * Pow2(j);
      }
    }
  }

  /**
   * With the default options, a request that keeps failing with a retryable
   * status is tried four times, with waits of 1, 2 and 4 seconds, and the
   * fourth error is thrown.
   */
  lemma DefaultSchedule(next: nat -> Attempt)
    requires forall k :: RetryableFailure(DefaultRetryOptions, next(k))
    ensures Middleware(DefaultRetryOptions, next) == Run(Settle(next(3)), 4, [1000, 2000, 4000])
  {
    var opts := DefaultRetryOptions;
    assert Pow2(1) == 2 && Pow2(2) == 4 && Pow2(3) == 8;
    assert RunFrom(opts, next, 3, Some(next(2).error)) == Run(Threw(Some(next(3).error)), 1, []);
    assert RunFrom(opts, next, 2, Some(next(1).error)) == Run(Threw(Some(next(3).error)), 2, [4000]);
    assert RunFrom(opts, next, 1, Some(next(0).error)) == Run(Threw(Some(next(3).error)), 3, [2000, 4000]);
  }

  /** An error whose status is not retryable is thrown at once, after a single call. */
  lemma NonRetryableStops(opts: RetryOptions, next: nat -> Attempt)
    requires opts.maxRetries >= 0
    requires next(0).Rejected? && !Retryable(opts, StatusOf(next(0).error))
    ensures Middleware(opts, next) == Run(Threw(Some(next(0).error)), 1, [])
  {
  }
}

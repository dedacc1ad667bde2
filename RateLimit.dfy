/**
 * The per-IP fixed-window rate limiter in front of every route: each IP has
 * an entry `{ count, start }`; a request either opens a new window (no entry
 * yet, or the window has run out) or counts one more request in the current
 * one, and a request whose count passes the maximum is answered with 429
 * instead of reaching the next handler. Clock readings (`Date.now()`) are
 * parameters, in milliseconds.
 */
module RateLimit {
  import opened Wrappers
  import opened Json

  /** 15 minutes, in milliseconds. */
  const WindowMs := 15 * 60 * 1000
  const MaxRequests := 100
  const TooManyRequests := "Too many requests, please try again later."

  datatype Entry = Entry(count: nat, start: int)

  /** What the middleware does with the request: pass it on with `next()`, or answer it itself. */
  datatype Verdict = Next | Reject(status: int, body: Value)

  /** Whether a request at `now` opens a new window for the IP. */
  predicate Expired(entry: Option<Entry>, now: int) {
    entry.None? || now - entry.value.start > WindowMs
  }

  /** The IP's entry once a request at `now` has been counted. */
  function Step(entry: Option<Entry>, now: int): (e: Entry)
    ensures e.count >= 1 && (e.start == now || (entry.Some? && e.start == entry.value.start))
  {
    if Expired(entry, now) then Entry(1, now) else Entry(entry.value.count + 1, entry.value.start)
  }

  /** `{ error: 'Too many requests, please try again later.' }`. */
  function TooManyBody(): (body: Value)
    ensures Keys(body) == {"error"} && Get(body, "error") == Str(TooManyRequests)
  {
    PropsLiteral(Field("error", Str(TooManyRequests)), Field("", Undefined), Field("", Undefined));
    Obj([Field("error", Str(TooManyRequests))])
  }

  /** The entry of `ip`, if it has one. */
  function EntryOf(limits: map<string, Entry>, ip: string): Option<Entry> {
    if ip in limits then Some(limits[ip]) else None
  }

  /** The middleware's state: the `ipRateLimits` map. */
  class RateLimiter {
    var limits: map<string, Entry>

    constructor()
      ensures limits == map[]
    {
      limits := map[];
    }

    /**
     * `customRateLimiter(req, res, next)` for a request from `ip` at `now`:
     * only the entry of `ip` changes, and the request is passed on exactly
     * when its updated count is at most the maximum.
     */
    method Handle(ip: string, now: int) returns (verdict: Verdict)
      modifies this
      ensures limits == old(limits)[ip := Step(EntryOf(old(limits), ip), now)]
      ensures verdict.Next? <==> limits[ip].count <= MaxRequests
      ensures verdict.Reject? ==> verdict == Reject(429, TooManyBody())
    {
      var entry: Entry;
      if ip !in limits || now - limits[ip].start > WindowMs {
        entry := Entry(1, now);
        limits := limits[ip := entry];
      } else {
        entry := limits[ip].(count := limits[ip].count + 1);
        limits := limits[ip := entry];
      }
      if entry.count > MaxRequests {
        verdict := Reject(429, TooManyBody());
        return;
      }
      verdict := Next;
    }
  }

  /** The entry after a run of requests at the given times. */
  function Replay(entry: Option<Entry>, times: seq<int>): Option<Entry>
    decreases |times|
  {
    if |times| == 0 then entry else Replay(Some(Step(entry, times[0])), times[1..])
  }

  /** How many of a run of requests are passed on. */
  function Admitted(entry: Option<Entry>, times: seq<int>): nat
    decreases |times|
  {
    if |times| == 0 then 0
    else
      var e := Step(entry, times[0]);
      (if e.count <= MaxRequests then 1 else 0) + Admitted(Some(e), times[1..])
  }

  /**
   * Requests that all fall within one window started at `start`, after `k`
   * of them already counted: the count keeps growing by one and the start stays.
   */
  lemma {:induction false} WithinWindow(k: nat, start: int, times: seq<int>)
    requires forall i :: 0 <= i < |times| ==> times[i] - start <= WindowMs
    ensures Replay(Some(Entry(k, start)), times) == Some(Entry(k + |times|, start))
    ensures Admitted(Some(Entry(k, start)), times) ==
      if k >= MaxRequests then 0
      else if k + |times| <= MaxRequests then |times|
      else MaxRequests - k
    decreases |times|
  {
    if |times| > 0 {
      WithinWindow(k + 1, start, times[1..]);
    }
  }

  /**
   * An IP without an entry that sends `n` requests within 15 minutes of its
   * first one gets the first 100 of them through and every later one rejected.
   */
  lemma FreshWindow(times: seq<int>)
    requires |times| >= 1
    requires forall i :: 0 <= i < |times| ==> times[i] - times[0] <= WindowMs
    ensures Replay(None, times) == Some(Entry(|times|, times[0]))
    ensures Admitted(None, times) == if |times| <= MaxRequests then |times| else MaxRequests
  {
    WithinWindow(1, times[0], times[1..]);
  }

  /** A request more than 15 minutes after its IP's window opened starts a new window and is always passed on. */
  lemma ExpiredWindowAdmits(entry: Entry, now: int)
    requires now - entry.start > WindowMs
    ensures Step(Some(entry), now) == Entry(1, now)
    ensures Admitted(Some(entry), [now]) == 1
  {
  }
}

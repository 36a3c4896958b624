/** `get_json`: one logical "fetch a URL as JSON" with a bounded retry loop.

    The transport is not modelled: the caller supplies the outcome each
    request would have, in order, and the model records the sleeps it would
    request instead of sleeping. */
module Fetch {
  import opened Wrappers
  import opened Json

  /** `retries = 10`: the loop issues at most this many requests. */
  const Retries: nat := 10

  /** HTTP statuses after which the loop sleeps and tries again. */
  const RetryableStatuses: set<int> := {429, 500, 502, 503, 504}

  /** A response the transport delivered. `payload` is the decoded body, or
      `None` when the body is not JSON and `response.json()` raises. */
  datatype Response = Response(status: int, payload: Option<Value>)

  /** What one `requests.get(url, timeout=5)` call produced. */
  datatype Outcome =
    | Received(response: Response)   // a response, whatever its status
    | TimedOut                       // `requests.exceptions.Timeout`
    | Raised(cause: string)          // any other exception, propagated as is

  /** Why `get_json` failed. */
  datatype FetchError =
    | HttpError(status: int)     // a non-retryable status re-raised by `raise`
    | Transport(cause: string)   // an exception the loop does not catch
    | NoResponse                 // every attempt timed out: `response` was never bound
    | InvalidJson(status: int)   // `response.json()` could not decode the body

  /** The whole call: its result, the number of requests issued, and the
      durations, in seconds, of the sleeps requested, in order. */
  datatype Run = Run(result: Result<Value, FetchError>, attempts: nat, sleeps: seq<nat>)

  /** The statuses for which `raise_for_status` raises `HTTPError`
      (client errors 4xx and server errors 5xx). */
  predicate IsHttpError(status: int) {
    400 <= status < 600
  }

  /** True when an attempt with this outcome is followed by a sleep and
      another attempt (if any remain). */
  predicate Retried(o: Outcome) {
    || o.TimedOut?
    || (o.Received? && IsHttpError(o.response.status) && o.response.status in RetryableStatuses)
  }

  /** `response.json()` on a bound response. */
  function JsonOf(r: Response): Result<Value, FetchError> {
    match r.payload
    case Some(v) => Ok(v)
    case None => Err(InvalidJson(r.status))
  }

  /** What happens after the loop ends without `break`: `response.json()` on
      the response bound last, or an error if none ever was. */
  function Exhausted(last: Option<Response>): Result<Value, FetchError> {
    match last
    case Some(r) => JsonOf(r)
    case None => Err(NoResponse)
  }

  /** The decision one loop iteration takes on its outcome. */
  datatype Step =
    | Stop(result: Result<Value, FetchError>)   // leave the function with this result
    | Retry(rebound: Option<Response>)          // sleep and continue; `Some` when `response` was rebound

  /** The body of the `for` loop for one outcome. */
  function Attempt(o: Outcome): (s: Step)
    ensures s.Retry? <==> Retried(o)
    ensures s.Retry? ==> (s.rebound.Some? <==> o.Received?)
  {
    match o
    case Raised(cause) => Stop(Err(Transport(cause)))
    case TimedOut => Retry(None)
    case Received(r) =>
      if !IsHttpError(r.status) then Stop(JsonOf(r))
      else if r.status in RetryableStatuses then Retry(Some(r))
      else Stop(Err(HttpError(r.status)))
  }

  /** The response bound after visiting `os`, starting from `last`. */
  function Latest(last: Option<Response>, os: seq<Outcome>): Option<Response>
    decreases |os|
  {
    if |os| == 0 then last
    else Latest(if os[0].Received? then Some(os[0].response) else last, os[1..])
  }

  /** The integers lo, lo + 1, ..., hi - 1. */
  function Span(lo: nat, hi: nat): (s: seq<nat>)
    requires lo <= hi
  {
    seq(hi - lo, i requires 0 <= i < hi - lo => lo + i)
  }

  /** The sleeps requested by the first `n` attempts when all of them failed
      in a retried way: attempt `k` (from zero) sleeps `k` seconds. */
  function Backoff(n: nat): seq<nat> {
    Span(0, n)
  }

  /** The loop from attempt `retry` on, with `response` bound to `last` and
      `sleeps` already requested. */
  function Loop(outcomes: seq<Outcome>, retry: nat, last: Option<Response>, sleeps: seq<nat>): (run: Run)
    requires retry < Retries <= |outcomes|
    ensures retry < run.attempts <= Retries
    ensures forall i :: retry <= i < run.attempts - 1 ==> Retried(outcomes[i])
    ensures run.attempts < Retries ==> !Retried(outcomes[run.attempts - 1])
    ensures Retried(outcomes[run.attempts - 1]) ==>
              && run.sleeps == sleeps + Span(retry, Retries)
              && run.result == Exhausted(Latest(last, outcomes[retry..Retries]))
    ensures !Retried(outcomes[run.attempts - 1]) ==>
              && run.sleeps == sleeps + Span(retry, run.attempts - 1)
              && Attempt(outcomes[run.attempts - 1]) == Stop(run.result)
    decreases Retries - retry
  {
    match Attempt(outcomes[retry])
    case Stop(result) => Run(result, retry + 1, sleeps)
    case Retry(rebound) =>
      var last' := if rebound.Some? then rebound else last;
      var sleeps' := sleeps + [retry];
      if retry + 1 < Retries then
        var run := Loop(outcomes, retry + 1, last', sleeps');
        SleepsStep(sleeps, retry, run.attempts - 1);
        SleepsStep(sleeps, retry, Retries);
        assert outcomes[retry..Retries][1..] == outcomes[retry + 1..Retries];
        run
      else
        assert outcomes[retry..Retries] == [outcomes[retry]];
        Run(Exhausted(last'), Retries, sleeps')
  }

  /** Requesting a sleep of `lo` seconds, then those of `Span(lo + 1, hi)`,
      is requesting those of `Span(lo, hi)`. */
  lemma SleepsStep(sleeps: seq<nat>, lo: nat, hi: nat)
    requires lo < hi
    ensures (sleeps + [lo]) + Span(lo + 1, hi) == sleeps + Span(lo, hi)
  {
  }

  /** `get_json(url)` against a transport that would produce `outcomes`.
      Attempt `k` is `outcomes[k]`; only the first `Retries` can be reached. */
  function GetJson(outcomes: seq<Outcome>): (run: Run)
    requires Retries <= |outcomes|
    // at least one and at most ten requests
    ensures 1 <= run.attempts <= Retries
    // every attempt but the last was a timeout or a retryable status
    ensures forall i :: 0 <= i < run.attempts - 1 ==> Retried(outcomes[i])
    // the loop only stops early on an outcome it does not retry
    ensures run.attempts < Retries ==> !Retried(outcomes[run.attempts - 1])
    ensures var o := outcomes[run.attempts - 1];
            if Retried(o) then
              // all ten attempts failed in a retried way: no error is raised for them
              && run.sleeps == Backoff(Retries)
              && run.result == Exhausted(Latest(None, outcomes[..Retries]))
            else
              && run.sleeps == Backoff(run.attempts - 1)
              && match o
                 case Raised(cause) => run.result == Err(Transport(cause))
                 case TimedOut => false
                 case Received(r) =>
                   run.result == if IsHttpError(r.status) then Err(HttpError(r.status)) else JsonOf(r)
  {
    var run := Loop(outcomes, 0, None, []);
    assert [] + Backoff(run.attempts - 1) == Backoff(run.attempts - 1);
    assert [] + Backoff(Retries) == Backoff(Retries);
    assert outcomes[0..Retries] == outcomes[..Retries];
    run
  }

  /** The loop of `get_json` written as main.py writes it, with a `return`
      where main.py breaks out of the loop or raises. */
  method FetchJson(outcomes: seq<Outcome>) returns (result: Result<Value, FetchError>, attempts: nat, sleeps: seq<nat>)
    requires Retries <= |outcomes|
    ensures Run(result, attempts, sleeps) == GetJson(outcomes)
  {
    ghost var run := GetJson(outcomes);
    assert run == Loop(outcomes, 0, None, []);
    var response: Option<Response> := None;
    sleeps := [];
    var retry: nat := 0;
    while retry < Retries
      invariant retry <= Retries
      invariant retry < Retries ==> Loop(outcomes, retry, response, sleeps) == run
      invariant retry == Retries ==> Run(Exhausted(response), Retries, sleeps) == run
    {
      ghost var here := Loop(outcomes, retry, response, sleeps);
      match outcomes[retry] {
        case Raised(cause) =>
          return Err(Transport(cause)), retry + 1, sleeps;
        case TimedOut =>
          sleeps := sleeps + [retry];
        case Received(r) =>
          response := Some(r);
          if !IsHttpError(r.status) {
            return JsonOf(r), retry + 1, sleeps;
          }
          if r.status !in RetryableStatuses {
            return Err(HttpError(r.status)), retry + 1, sleeps;
          }
          sleeps := sleeps + [retry];
      }
      if retry + 1 < Retries {
        assert here == Loop(outcomes, retry + 1, response, sleeps);
      } else {
        assert here == Run(Exhausted(response), Retries, sleeps);
      }
      retry := retry + 1;
    }
    result, attempts := Exhausted(response), Retries;
  }

  /** `os[i]` is the last outcome in `os` that delivered a response. */
  ghost predicate LastReceivedAt(os: seq<Outcome>, i: int) {
    && 0 <= i < |os|
    && os[i].Received?
    && forall j :: i < j < |os| ==> !os[j].Received?
  }

  /** `Latest` is the response of the last outcome that delivered one, or the
      starting binding when none did. */
  lemma {:induction false} LatestIsLastReceived(last: Option<Response>, os: seq<Outcome>)
    ensures (forall i :: 0 <= i < |os| ==> !os[i].Received?) ==> Latest(last, os) == last
    ensures forall i :: LastReceivedAt(os, i) ==> Latest(last, os) == Some(os[i].response)
    decreases |os|
  {
    if |os| > 0 {
      var last' := if os[0].Received? then Some(os[0].response) else last;
      var rest := os[1..];
      LatestIsLastReceived(last', rest);
      forall i | LastReceivedAt(os, i)
        ensures Latest(last, os) == Some(os[i].response)
      {
        if i == 0 {
          assert forall j :: 0 <= j < |rest| ==> !rest[j].Received? by {
            forall j | 0 <= j < |rest| ensures !rest[j].Received? {
              assert rest[j] == os[j + 1];
            }
          }
        } else {
          assert LastReceivedAt(rest, i - 1) by {
            forall j | i - 1 < j < |rest| ensures !rest[j].Received? {
              assert rest[j] == os[j + 1];
            }
          }
        }
      }
      if forall i :: 0 <= i < |os| ==> !os[i].Received? {
        assert forall j :: 0 <= j < |rest| ==> !rest[j].Received? by {
          forall j | 0 <= j < |rest| ensures !rest[j].Received? {
            assert rest[j] == os[j + 1];
          }
        }
      }
    }
  }

  /** The loop reads no outcome past the attempt it stops on. */
  lemma {:induction false} LoopReadsOnlyItsAttempts(a: seq<Outcome>, b: seq<Outcome>, retry: nat, last: Option<Response>, sleeps: seq<nat>)
    requires retry < Retries <= |a| && Retries <= |b|
    requires forall i :: retry <= i < Loop(a, retry, last, sleeps).attempts ==> a[i] == b[i]
    ensures Loop(b, retry, last, sleeps) == Loop(a, retry, last, sleeps)
    decreases Retries - retry
  {
    assert a[retry] == b[retry];
    match Attempt(a[retry])
    case Stop(_) =>
    case Retry(rebound) =>
      var last' := if rebound.Some? then rebound else last;
      if retry + 1 < Retries {
        LoopReadsOnlyItsAttempts(a, b, retry + 1, last', sleeps + [retry]);
      } else {
        assert a[retry..Retries] == b[retry..Retries];
      }
  }

  /** Outcomes after the attempt `get_json` stops on are never consumed:
      changing them changes nothing. */
  lemma GetJsonReadsOnlyItsAttempts(a: seq<Outcome>, b: seq<Outcome>)
    requires Retries <= |a| && Retries <= |b|
    requires forall i :: 0 <= i < GetJson(a).attempts ==> a[i] == b[i]
    ensures GetJson(b) == GetJson(a)
  {
    LoopReadsOnlyItsAttempts(a, b, 0, None, []);
  }

  /** The first attempt that is not retried ends the call on attempt `k + 1`,
      after sleeping 0, 1, ..., k - 1 seconds. */
  lemma FirstStopEndsCall(outcomes: seq<Outcome>, k: nat)
    requires Retries <= |outcomes| && k < Retries
    requires forall i :: 0 <= i < k ==> Retried(outcomes[i])
    requires !Retried(outcomes[k])
    ensures GetJson(outcomes).attempts == k + 1
    ensures GetJson(outcomes).sleeps == Backoff(k)
    ensures Attempt(outcomes[k]) == Stop(GetJson(outcomes).result)
  {
  }

  /** A response that passes `raise_for_status` is decoded and returned; no
      later outcome is consumed. */
  lemma SuccessIsReturned(outcomes: seq<Outcome>, k: nat)
    requires Retries <= |outcomes| && k < Retries
    requires forall i :: 0 <= i < k ==> Retried(outcomes[i])
    requires outcomes[k].Received? && !IsHttpError(outcomes[k].response.status)
    ensures GetJson(outcomes) == Run(JsonOf(outcomes[k].response), k + 1, Backoff(k))
  {
    FirstStopEndsCall(outcomes, k);
  }

  /** An HTTP error outside the retryable set is raised after that attempt,
      with no further request. */
  lemma NonRetryableStatusIsRaised(outcomes: seq<Outcome>, k: nat)
    requires Retries <= |outcomes| && k < Retries
    requires forall i :: 0 <= i < k ==> Retried(outcomes[i])
    requires outcomes[k].Received?
    requires IsHttpError(outcomes[k].response.status) && outcomes[k].response.status !in RetryableStatuses
    ensures GetJson(outcomes) == Run(Err(HttpError(outcomes[k].response.status)), k + 1, Backoff(k))
  {
    FirstStopEndsCall(outcomes, k);
  }

  /** A retryable status or a timeout on attempt `k` is followed by a sleep
      of exactly `k` seconds and, unless it was the tenth, another request. */
  lemma RetriedAttemptSleepsItsIndex(outcomes: seq<Outcome>, k: nat)
    requires Retries <= |outcomes| && k < Retries
    requires forall i :: 0 <= i <= k ==> Retried(outcomes[i])
    ensures k + 1 < Retries ==> GetJson(outcomes).attempts > k + 1
    ensures |GetJson(outcomes).sleeps| > k && GetJson(outcomes).sleeps[k] == k
  {
  }

  /** Ten timeouts: nothing is raised for them, and the final
      `response.json()` fails because `response` was never bound. */
  lemma AllTimeoutsFindNoResponse(outcomes: seq<Outcome>)
    requires Retries <= |outcomes|
    requires forall i :: 0 <= i < Retries ==> outcomes[i].TimedOut?
    ensures GetJson(outcomes) == Run(Err(NoResponse), Retries, Backoff(Retries))
  {
    LatestIsLastReceived(None, outcomes[..Retries]);
  }

  /** Ten retried failures, some with a response: the call returns the body
      of the last response received, which is an error response. */
  lemma ExhaustionReturnsLastErrorBody(outcomes: seq<Outcome>, k: nat)
    requires Retries <= |outcomes|
    requires forall i :: 0 <= i < Retries ==> Retried(outcomes[i])
    requires LastReceivedAt(outcomes[..Retries], k)
    ensures IsHttpError(outcomes[k].response.status) && outcomes[k].response.status in RetryableStatuses
    ensures GetJson(outcomes) == Run(JsonOf(outcomes[k].response), Retries, Backoff(Retries))
  {
    LatestIsLastReceived(None, outcomes[..Retries]);
  }

  /** Two rate limits, then a 200: three requests, sleeps of 0 and 1 seconds,
      and the 200's body. */
  lemma RateLimitedTwiceThenOk(outcomes: seq<Outcome>, body: Value)
    requires Retries <= |outcomes|
    requires outcomes[0].Received? && outcomes[0].response.status == 429
    requires outcomes[1].Received? && outcomes[1].response.status == 429
    requires outcomes[2] == Received(Response(200, Some(body)))
    ensures GetJson(outcomes) == Run(Ok(body), 3, [0, 1])
  {
    SuccessIsReturned(outcomes, 2);
    assert Backoff(2) == [0, 1];
  }

  /** A 404 on the first request: one request, no sleep, the error raised. */
  lemma NotFoundFailsAtOnce(outcomes: seq<Outcome>)
    requires Retries <= |outcomes|
    requires outcomes[0].Received? && outcomes[0].response.status == 404
    ensures GetJson(outcomes) == Run(Err(HttpError(404)), 1, [])
  {
    NonRetryableStatusIsRaised(outcomes, 0);
  }
}

/**
 * The retrying IOPGPS poller (api.go): build the alarm request for a window that ends
 * now, send it up to seven times while the transport reports an i/o timeout, waiting
 * 1 s, 2 s, 4 s, ... between attempts and rebuilding the URL with a fresh end time each
 * time; then check the response and upload every alarm detail to the backend.
 */
module Api {
  import opened Wrappers
  import opened Text
  import opened Alarms
  import opened Devices
  import opened Http
  import CronJobs

  /** What the transport and the clock do, attempt by attempt. */
  datatype Network = Network(
    attempt: (nat, Request) -> Outcome,  // client.Do on the k-th attempt
    clock: nat -> int,                   // time.Now().Unix() when the k-th URL is built
    validURL: string -> bool)            // http.NewRequest accepts the URL

  /** The errors doRequestWithRetry and GetAlarmData report. */
  datatype FetchError =
    | CreateFailed(url: string)              // http.NewRequest failed
    | DoFailed(url: string, message: string) // a transport error other than a timeout
    | RetriesExhausted(url: string)          // every attempt timed out (corrected code only)
    | StatusError(status: int, body: Bytes)  // status 400 or above
    | EmptyBody(url: string)                 // a successful status with no body

  /** The transport error is a timeout, the only one that is retried. */
  predicate TimedOut(o: Outcome) {
    o.TransportError? && Contains(o.message, "i/o timeout")
  }

  function Pow2(k: nat): (r: nat)
    ensures r >= 1
  {
    if k == 0 then 1 else 2 * Pow2(k - 1)
  }

  /** One second in time.Duration units (nanoseconds). */
  const BaseDelay: int := 1_000_000_000
  const MaxRetries: int := 7

  /** createRequest(url, ...) after a timeout: the header value is copied, "" when it was absent. */
  function Rebuilt(req: Request, imei: string, startTime: int, endTime: int): (r: Request)
    ensures r.accessToken == Some(req.accessToken.GetOr(""))
  {
    Request(IopgpsAlarmURL(imei, startTime, endTime), Some(req.accessToken.GetOr("")))
  }

  /**
   * doRequestWithRetry's result together with what it did: the requests it sent and the
   * delays it slept, in order. `resp` and `err` are the two Go results; both None is the
   * (nil, nil) pair the Go code returns once every attempt has timed out.
   */
  datatype Attempts = Attempts(resp: Option<Outcome>, err: Option<FetchError>, requests: seq<Request>, delays: seq<int>)

  /** Why iteration `j`, sending `q`, ended the loop with error `e`. */
  predicate ErrorCause(net: Network, j: nat, q: Request, e: FetchError, imei: string, startTime: int) {
    var o := net.attempt(j, q);
    (o.TransportError? && !TimedOut(o) && e == DoFailed(q.url, o.message)) ||
    (TimedOut(o) && !net.validURL(IopgpsAlarmURL(imei, startTime, net.clock(j + 1))) &&
     e == CreateFailed(IopgpsAlarmURL(imei, startTime, net.clock(j + 1))))
  }

  /** How one iteration of doRequestWithRetry ends: with a response, with an error, or by going round again. */
  datatype Step = Answer(response: Outcome) | Stop(error: FetchError, slept: seq<int>) | Again(delay: int, next: Request)

  /** Iteration `i` of doRequestWithRetry, sending `req`. */
  function StepAt(req: Request, imei: string, startTime: int, i: nat, baseDelay: int, net: Network): Step {
    var o := net.attempt(i, req);
    if o.Answered? then Answer(o)
    else if !TimedOut(o) then Stop(DoFailed(req.url, o.message), [])
    else
      var url := IopgpsAlarmURL(imei, startTime, net.clock(i + 1));
      if !net.validURL(url) then Stop(CreateFailed(url), [baseDelay * Pow2(i)])
      else Again(baseDelay * Pow2(i), Rebuilt(req, imei, startTime, net.clock(i + 1)))
  }

  /** The loop body of doRequestWithRetry for one device and start time, iteration by iteration. */
  function Steps(imei: string, startTime: int, baseDelay: int, net: Network): (nat, Request) -> Step {
    (j: nat, q: Request) => StepAt(q, imei, startTime, j, baseDelay, net)
  }

  /**
   * doRequestWithRetry's loop from iteration `i` on, with `req` the request of that
   * iteration and `step` its body: it runs until an iteration answers or stops, or the
   * iterations run out.
   */
  function Retry(req: Request, i: nat, maxRetries: int, step: (nat, Request) -> Step): Attempts
    decreases if i < maxRetries then maxRetries - i else 0
  {
    if i >= maxRetries then Attempts(None, None, [], [])
    else
      match step(i, req)
      case Answer(o) => Attempts(Some(o), None, [req], [])
      case Stop(e, slept) => Attempts(None, Some(e), [req], slept)
      case Again(delay, next) =>
        var rest := Retry(next, i + 1, maxRetries, step);
        Attempts(rest.resp, rest.err, [req] + rest.requests, [delay] + rest.delays)
  }

  function Max0(n: int): nat {
    if n < 0 then 0 else n
  }

  /** Delays from iteration `i` on double each time, starting at base·2^i. */
  predicate BackoffFrom(delays: seq<int>, baseDelay: int, i: nat) {
    forall k :: 0 <= k < |delays| ==> delays[k] == baseDelay * Pow2(i + k)
  }

  /**
   * What iteration `j` of the loop body does with request `q`: it answers exactly when
   * the transport answered; it stops on a transport error other than a timeout, or when
   * the URL cannot be rebuilt after sleeping; and after a timeout it sleeps base·2^j and
   * goes round again with the URL rebuilt at the clock's next reading.
   */
  predicate StepSpec(s: Step, j: nat, q: Request, imei: string, startTime: int, baseDelay: int, net: Network) {
    var o := net.attempt(j, q);
    && (s.Answer? <==> o.Answered?)
    && (s.Answer? ==> s.response == o)
    && (s.Stop? ==> ErrorCause(net, j, q, s.error, imei, startTime) && BackoffFrom(s.slept, baseDelay, j))
    && (s.Again? ==> TimedOut(o) && s.delay == baseDelay * Pow2(j) && s.next == Rebuilt(q, imei, startTime, net.clock(j + 1)))
  }

  /** Every iteration of `step` behaves as StepSpec says. */
  ghost predicate Follows(step: (nat, Request) -> Step, imei: string, startTime: int, baseDelay: int, net: Network) {
    forall j: nat, q: Request :: StepSpec(step(j, q), j, q, imei, startTime, baseDelay, net)
  }

  /** doRequestWithRetry's loop body meets StepSpec. */
  lemma StepsFollow(imei: string, startTime: int, baseDelay: int, net: Network)
    ensures Follows(Steps(imei, startTime, baseDelay, net), imei, startTime, baseDelay, net)
  {
    forall j: nat, q: Request
      ensures StepSpec(Steps(imei, startTime, baseDelay, net)(j, q), j, q, imei, startTime, baseDelay, net)
    {
      var s := StepAt(q, imei, startTime, j, baseDelay, net);
      assert Steps(imei, startTime, baseDelay, net)(j, q) == s;
      if s.Stop? && |s.slept| == 1 {
        assert s.slept[0] == baseDelay * Pow2(j + 0);
      }
    }
  }

  /** Never more requests than iterations left, and never more delays than requests; the first request is the caller's. */
  predicate Bounded(a: Attempts, req: Request, i: nat, maxRetries: int) {
    && |a.requests| <= Max0(maxRetries - i)
    && (i < maxRetries ==> |a.requests| >= 1 && a.requests[0] == req)
  }

  lemma {:induction false} RetryLength(req: Request, i: nat, maxRetries: int, step: (nat, Request) -> Step)
    ensures Bounded(Retry(req, i, maxRetries, step), req, i, maxRetries)
    decreases if i < maxRetries then maxRetries - i else 0
  {
    if i < maxRetries && step(i, req).Again? {
      RetryLength(step(i, req).next, i + 1, maxRetries, step);
    }
  }

  /** The first `n` requests, sent from iteration `i` on, all timed out. */
  predicate TimedOutFrom(net: Network, i: nat, reqs: seq<Request>, n: int)
    requires n <= |reqs|
  {
    forall k :: 0 <= k < n ==> TimedOut(net.attempt(i + k, reqs[k]))
  }

  lemma TimedOutCons(net: Network, i: nat, req: Request, rest: seq<Request>, n: int)
    requires n <= |rest| && TimedOut(net.attempt(i, req)) && TimedOutFrom(net, i + 1, rest, n)
    ensures TimedOutFrom(net, i, [req] + rest, if n < 0 then 1 else n + 1)
  {
    var reqs := [req] + rest;
    forall k | 0 <= k < (if n < 0 then 1 else n + 1)
      ensures TimedOut(net.attempt(i + k, reqs[k]))
    {
      if k > 0 {
        assert reqs[k] == rest[k - 1];
        assert i + k == (i + 1) + (k - 1);
      }
    }
  }

  lemma BackoffCons(delays: seq<int>, rest: seq<int>, baseDelay: int, i: nat)
    requires delays == [baseDelay * Pow2(i)] + rest
    requires BackoffFrom(rest, baseDelay, i + 1)
    ensures BackoffFrom(delays, baseDelay, i)
  {
    forall k | 0 <= k < |delays|
      ensures delays[k] == baseDelay * Pow2(i + k)
    {
      if k > 0 {
        assert delays[k] == rest[k - 1];
        assert i + k == (i + 1) + (k - 1);
      }
    }
  }

  /** Exponential backoff: the k-th delay is base·2^(i+k), with no jitter. */
  lemma {:induction false} RetryDelays(req: Request, i: nat, maxRetries: int, step: (nat, Request) -> Step,
                                       imei: string, startTime: int, baseDelay: int, net: Network)
    requires Follows(step, imei, startTime, baseDelay, net)
    ensures BackoffFrom(Retry(req, i, maxRetries, step).delays, baseDelay, i)
    decreases if i < maxRetries then maxRetries - i else 0
  {
    if i < maxRetries {
      var s := step(i, req);
      assert StepSpec(s, i, req, imei, startTime, baseDelay, net);
      if s.Again? {
        RetryDelays(s.next, i + 1, maxRetries, step, imei, startTime, baseDelay, net);
        BackoffCons(Retry(req, i, maxRetries, step).delays, Retry(s.next, i + 1, maxRetries, step).delays, baseDelay, i);
      }
    }
  }

  /** Every request after the first, sent from iteration `i` on, is the alarm URL rebuilt at its own clock reading, with `token`. */
  predicate RebuiltFrom(reqs: seq<Request>, imei: string, startTime: int, net: Network, i: nat, token: string) {
    forall k :: 1 <= k < |reqs| ==> reqs[k] == Request(IopgpsAlarmURL(imei, startTime, net.clock(i + k)), Some(token))
  }

  lemma RebuiltCons(reqs: seq<Request>, req: Request, rest: seq<Request>, imei: string, startTime: int, net: Network, i: nat, token: string)
    requires reqs == [req] + rest
    requires rest != [] ==> rest[0] == Request(IopgpsAlarmURL(imei, startTime, net.clock(i + 1)), Some(token))
    requires RebuiltFrom(rest, imei, startTime, net, i + 1, token)
    ensures RebuiltFrom(reqs, imei, startTime, net, i, token)
  {
    forall k | 1 <= k < |reqs|
      ensures reqs[k] == Request(IopgpsAlarmURL(imei, startTime, net.clock(i + k)), Some(token))
    {
      assert reqs[k] == rest[k - 1];
      assert i + k == (i + 1) + (k - 1);
    }
  }

  /** A timed-out iteration hands the next one the alarm URL rebuilt at the next clock reading, with the same token. */
  lemma AgainRebuilds(step: (nat, Request) -> Step, i: nat, req: Request, imei: string, startTime: int, baseDelay: int, net: Network)
    requires Follows(step, imei, startTime, baseDelay, net) && step(i, req).Again?
    ensures step(i, req).next == Request(IopgpsAlarmURL(imei, startTime, net.clock(i + 1)), Some(req.accessToken.GetOr("")))
    ensures step(i, req).next.accessToken.GetOr("") == req.accessToken.GetOr("")
  {
    assert StepSpec(step(i, req), i, req, imei, startTime, baseDelay, net);
  }

  /**
   * Each rebuilt request asks for the same device and start time, with a fresh end
   * time read from the clock and the caller's AccessToken header.
   */
  lemma {:induction false} RetryRequests(req: Request, i: nat, maxRetries: int, step: (nat, Request) -> Step,
                                         imei: string, startTime: int, baseDelay: int, net: Network)
    requires Follows(step, imei, startTime, baseDelay, net)
    ensures RebuiltFrom(Retry(req, i, maxRetries, step).requests, imei, startTime, net, i, req.accessToken.GetOr(""))
    decreases if i < maxRetries then maxRetries - i else 0
  {
    if i < maxRetries && step(i, req).Again? {
      var next := step(i, req).next;
      var token := req.accessToken.GetOr("");
      AgainRebuilds(step, i, req, imei, startTime, baseDelay, net);
      RetryRequests(next, i + 1, maxRetries, step, imei, startTime, baseDelay, net);
      RetryLength(next, i + 1, maxRetries, step);
      RebuiltCons(Retry(req, i, maxRetries, step).requests, req, Retry(next, i + 1, maxRetries, step).requests,
                  imei, startTime, net, i, token);
    }
  }

  /**
   * Every request but the last timed out; a response is the last attempt's answer and
   * comes without an error; and the (nil, nil) pair happens exactly when every
   * remaining iteration timed out.
   */
  predicate TimeoutsExplained(a: Attempts, i: nat, maxRetries: int, net: Network) {
    && TimedOutFrom(net, i, a.requests, |a.requests| - 1)
    && (a.resp.Some? ==> a.err.None? && |a.requests| >= 1 && a.resp.value.Answered? &&
                         a.resp.value == net.attempt(i + |a.requests| - 1, a.requests[|a.requests| - 1]))
    && (a.resp.None? && a.err.None? ==> |a.requests| == Max0(maxRetries - i) && |a.delays| == |a.requests| &&
                                        TimedOutFrom(net, i, a.requests, |a.requests|))
  }

  lemma TimeoutsCons(a: Attempts, rest: Attempts, req: Request, delay: int, i: nat, maxRetries: int, net: Network)
    requires i < maxRetries && TimedOut(net.attempt(i, req))
    requires a.resp == rest.resp && a.err == rest.err && a.requests == [req] + rest.requests && a.delays == [delay] + rest.delays
    requires TimeoutsExplained(rest, i + 1, maxRetries, net)
    ensures TimeoutsExplained(a, i, maxRetries, net)
  {
    TimedOutCons(net, i, req, rest.requests, |rest.requests| - 1);
    if a.resp.Some? {
      assert a.requests[|a.requests| - 1] == rest.requests[|rest.requests| - 1];
    }
    if a.resp.None? && a.err.None? {
      TimedOutCons(net, i, req, rest.requests, |rest.requests|);
    }
  }

  lemma {:induction false} RetryTimeouts(req: Request, i: nat, maxRetries: int, step: (nat, Request) -> Step,
                                         imei: string, startTime: int, baseDelay: int, net: Network)
    requires Follows(step, imei, startTime, baseDelay, net)
    ensures TimeoutsExplained(Retry(req, i, maxRetries, step), i, maxRetries, net)
    decreases if i < maxRetries then maxRetries - i else 0
  {
    if i < maxRetries {
      var s := step(i, req);
      assert StepSpec(s, i, req, imei, startTime, baseDelay, net);
      if s.Again? {
        RetryTimeouts(s.next, i + 1, maxRetries, step, imei, startTime, baseDelay, net);
        TimeoutsCons(Retry(req, i, maxRetries, step), Retry(s.next, i + 1, maxRetries, step), req, s.delay, i, maxRetries, net);
      }
    }
  }

  /** The loop ended with error `err` after sending `reqs` from iteration `i` on, for the reason ErrorCause names. */
  predicate ErrorExplained(a: Attempts, i: nat, imei: string, startTime: int, net: Network) {
    a.err.Some? ==> |a.requests| >= 1 && a.resp.None? &&
                    ErrorCause(net, i + |a.requests| - 1, a.requests[|a.requests| - 1], a.err.value, imei, startTime)
  }

  lemma ErrorExplainedCons(a: Attempts, rest: Attempts, req: Request, i: nat, imei: string, startTime: int, net: Network)
    requires a.resp == rest.resp && a.err == rest.err && a.requests == [req] + rest.requests
    requires ErrorExplained(rest, i + 1, imei, startTime, net)
    ensures ErrorExplained(a, i, imei, startTime, net)
  {
    if a.err.Some? {
      assert a.requests[|a.requests| - 1] == rest.requests[|rest.requests| - 1];
      assert i + |a.requests| - 1 == (i + 1) + |rest.requests| - 1;
    }
  }

  /** An error from the loop comes from its last request: a non-timeout failure, or a URL that could not be rebuilt. */
  lemma {:induction false} RetryErrorCause(req: Request, i: nat, maxRetries: int, step: (nat, Request) -> Step,
                                           imei: string, startTime: int, baseDelay: int, net: Network)
    requires Follows(step, imei, startTime, baseDelay, net)
    ensures ErrorExplained(Retry(req, i, maxRetries, step), i, imei, startTime, net)
    decreases if i < maxRetries then maxRetries - i else 0
  {
    if i < maxRetries {
      var s := step(i, req);
      assert StepSpec(s, i, req, imei, startTime, baseDelay, net);
      if s.Again? {
        RetryErrorCause(s.next, i + 1, maxRetries, step, imei, startTime, baseDelay, net);
        ErrorExplainedCons(Retry(req, i, maxRetries, step), Retry(s.next, i + 1, maxRetries, step), req, i, imei, startTime, net);
      }
    }
  }

  /** One pass of doRequestWithRetry's loop body: send, and on a timeout back off and rebuild the request. */
  method Iteration(current: Request, imei: string, startTime: int, i: nat, baseDelay: int, net: Network) returns (step: Step)
    ensures step == Steps(imei, startTime, baseDelay, net)(i, current)
  {
    var o := net.attempt(i, current);
    if o.Answered? {
      return Answer(o);
    }
    if !TimedOut(o) {
      return Stop(DoFailed(current.url, o.message), []);
    }
    var delay := baseDelay * Pow2(i);
    var url := IopgpsAlarmURL(imei, startTime, net.clock(i + 1));
    if !net.validURL(url) {
      return Stop(CreateFailed(url), [delay]);
    }
    step := Again(delay, Request(url, Some(current.accessToken.GetOr(""))));
  }

  /** What the loop has sent and slept so far, followed by what it does from here on. */
  function After(sent: seq<Request>, slept: seq<int>, rest: Attempts): Attempts {
    Attempts(rest.resp, rest.err, sent + rest.requests, slept + rest.delays)
  }

  lemma AfterAgain(sent: seq<Request>, slept: seq<int>, req: Request, delay: int, rest: Attempts)
    ensures After(sent, slept, Attempts(rest.resp, rest.err, [req] + rest.requests, [delay] + rest.delays)) ==
            After(sent + [req], slept + [delay], rest)
  {
    assert (sent + [req]) + rest.requests == sent + ([req] + rest.requests);
    assert (slept + [delay]) + rest.delays == slept + ([delay] + rest.delays);
  }

  /** doRequestWithRetry: the loop, sending `req` and rebuilding it after each timeout. */
  method DoRequestWithRetry(req: Request, imei: string, startTime: int, maxRetries: int, baseDelay: int, net: Network)
    returns (resp: Option<Outcome>, err: Option<FetchError>, sent: seq<Request>, slept: seq<int>)
    ensures Attempts(resp, err, sent, slept) == Retry(req, 0, maxRetries, Steps(imei, startTime, baseDelay, net))
  {
    ghost var body := Steps(imei, startTime, baseDelay, net);
    ghost var total := Retry(req, 0, maxRetries, body);
    sent, slept := [], [];
    var current := req;
    var i: nat := 0;
    assert total == After(sent, slept, Retry(current, i, maxRetries, body));
    while i < maxRetries
      invariant total == After(sent, slept, Retry(current, i, maxRetries, body))
      decreases maxRetries - i
    {
      var step := Iteration(current, imei, startTime, i, baseDelay, net);
      match step
      case Answer(o) =>
        return Some(o), None, sent + [current], slept;
      case Stop(e, delays) =>
        return None, Some(e), sent + [current], slept + delays;
      case Again(delay, next) =>
        AfterAgain(sent, slept, current, delay, Retry(next, i + 1, maxRetries, body));
        sent, slept := sent + [current], slept + [delay];
        current := next;
        i := i + 1;
    }
    assert sent + [] == sent && slept + [] == slept;
    return None, None, sent, slept;
  }

  /** GetAlarmData's three possible ends: the body, an error, or a nil-pointer panic. */
  datatype Fetched = Data(body: Bytes) | Error(error: FetchError) | NilResponsePanic

  /** The request GetAlarmData starts with: the window [currentTime - interval, now]. */
  function FirstRequest(imei: string, currentTime: int, interval: int, accessToken: string, net: Network): Request {
    Request(IopgpsAlarmURL(imei, currentTime - interval, net.clock(0)), Some(accessToken))
  }

  /** The checks GetAlarmData applies to the response doRequestWithRetry returned. */
  function CheckResponse(url: string, o: Outcome): (r: Fetched)
    requires o.Answered?
    ensures r.Data? <==> Accepted(o)
    ensures r.Data? ==> r.body == o.body
  {
    if o.status >= 400 then Error(StatusError(o.status, o.body))
    else if |o.body| == 0 then Error(EmptyBody(url))
    else Data(o.body)
  }

  /** GetAlarmData as written: a (nil, nil) pair from the retry loop is dereferenced. */
  function Fetch(imei: string, currentTime: int, interval: int, accessToken: string, net: Network): Fetched {
    var req := FirstRequest(imei, currentTime, interval, accessToken, net);
    if !net.validURL(req.url) then Error(CreateFailed(req.url))
    else
      var a := Retry(req, 0, MaxRetries, Steps(imei, currentTime - interval, BaseDelay, net));
      StepsFollow(imei, currentTime - interval, BaseDelay, net);
      RetryTimeouts(req, 0, MaxRetries, Steps(imei, currentTime - interval, BaseDelay, net), imei, currentTime - interval, BaseDelay, net);
      if a.err.Some? then Error(a.err.value)
      else if a.resp.None? then NilResponsePanic
      else CheckResponse(req.url, a.resp.value)
  }

  /**
   * GetAlarmData returns data only when the last of at most seven requests was answered
   * with a status below 400 and a non-empty body, every earlier one having timed out;
   * that body is what it returns.
   */
  lemma FetchData(imei: string, currentTime: int, interval: int, accessToken: string, net: Network)
    requires Fetch(imei, currentTime, interval, accessToken, net).Data?
    ensures var a := Retry(FirstRequest(imei, currentTime, interval, accessToken, net), 0, MaxRetries, Steps(imei, currentTime - interval, BaseDelay, net));
      && 1 <= |a.requests| <= MaxRetries
      && TimedOutFrom(net, 0, a.requests, |a.requests| - 1)
      && var last := net.attempt(|a.requests| - 1, a.requests[|a.requests| - 1]);
         Accepted(last) && Fetch(imei, currentTime, interval, accessToken, net).body == last.body
  {
    var req := FirstRequest(imei, currentTime, interval, accessToken, net);
    StepsFollow(imei, currentTime - interval, BaseDelay, net);
    RetryLength(req, 0, MaxRetries, Steps(imei, currentTime - interval, BaseDelay, net));
    RetryTimeouts(req, 0, MaxRetries, Steps(imei, currentTime - interval, BaseDelay, net), imei, currentTime - interval, BaseDelay, net);
  }

  /** Every attempt times out: the loop returns neither a response nor an error, and GetAlarmData dereferences the missing response. */
  lemma AllTimeoutsPanic(imei: string, currentTime: int, interval: int, accessToken: string, net: Network)
    requires forall k: nat, q: Request :: TimedOut(net.attempt(k, q))
    requires forall u :: net.validURL(u)
    ensures Fetch(imei, currentTime, interval, accessToken, net) == NilResponsePanic
  {
    var req := FirstRequest(imei, currentTime, interval, accessToken, net);
    StepsFollow(imei, currentTime - interval, BaseDelay, net);
    RetryTimeouts(req, 0, MaxRetries, Steps(imei, currentTime - interval, BaseDelay, net), imei, currentTime - interval, BaseDelay, net);
    RetryErrorCause(req, 0, MaxRetries, Steps(imei, currentTime - interval, BaseDelay, net), imei, currentTime - interval, BaseDelay, net);
  }

  /** A transport that always times out. */
  const AlwaysTimesOut: Network := Network((k: nat, q: Request) => TransportError("dial tcp: i/o timeout"), (k: nat) => 0, (u: string) => true)

  /** The concrete input that shows the panic: a transport that never answers. */
  lemma TimeoutPanicExample()
    ensures Fetch("359339072173798", 1700000000, 60, "token", AlwaysTimesOut) == NilResponsePanic
  {
    var m := "dial tcp: i/o timeout";
    assert m[10..10 + |"i/o timeout"|] == "i/o timeout";
    assert OccursAt(m, "i/o timeout", 10);
    AllTimeoutsPanic("359339072173798", 1700000000, 60, "token", AlwaysTimesOut);
  }

  /** The evidently intended loop: running out of attempts is an error, never a (nil, nil) pair. */
  function RetryCorrected(req: Request, imei: string, startTime: int, maxRetries: int, baseDelay: int, net: Network): (r: Attempts)
    ensures r.resp.Some? != r.err.Some?
    ensures r.resp.Some? ==> r.resp.value.Answered?
  {
    var a := Retry(req, 0, maxRetries, Steps(imei, startTime, baseDelay, net));
    StepsFollow(imei, startTime, baseDelay, net);
    RetryTimeouts(req, 0, maxRetries, Steps(imei, startTime, baseDelay, net), imei, startTime, baseDelay, net);
    RetryErrorCause(req, 0, maxRetries, Steps(imei, startTime, baseDelay, net), imei, startTime, baseDelay, net);
    if a.resp.None? && a.err.None?
    then Attempts(None, Some(RetriesExhausted(if a.requests == [] then req.url else a.requests[|a.requests| - 1].url)), a.requests, a.delays)
    else a
  }

  /** GetAlarmData over the corrected loop. */
  function FetchCorrected(imei: string, currentTime: int, interval: int, accessToken: string, net: Network): Fetched {
    var req := FirstRequest(imei, currentTime, interval, accessToken, net);
    if !net.validURL(req.url) then Error(CreateFailed(req.url))
    else
      var a := RetryCorrected(req, imei, currentTime - interval, MaxRetries, BaseDelay, net);
      if a.err.Some? then Error(a.err.value)
      else CheckResponse(req.url, a.resp.value)
  }

  /**
   * The corrected fetch never panics, agrees with the code as written wherever that does
   * not panic, and reports every attempt timing out as RetriesExhausted.
   */
  lemma FetchCorrectedNeverPanics(imei: string, currentTime: int, interval: int, accessToken: string, net: Network)
    ensures FetchCorrected(imei, currentTime, interval, accessToken, net) != NilResponsePanic
    ensures Fetch(imei, currentTime, interval, accessToken, net) != NilResponsePanic ==>
      FetchCorrected(imei, currentTime, interval, accessToken, net) == Fetch(imei, currentTime, interval, accessToken, net)
    ensures Fetch(imei, currentTime, interval, accessToken, net) == NilResponsePanic ==>
      FetchCorrected(imei, currentTime, interval, accessToken, net).Error? &&
      FetchCorrected(imei, currentTime, interval, accessToken, net).error.RetriesExhausted?
  {
  }

  /** saveAlarmInAPI's result for one detail: an error unless the backend answered 2xx. */
  datatype SaveError = PostFailed | BadStatus(status: int)

  function SaveDetail(d: AlarmData, post: CronJobs.AlarmDataForPost -> Option<int>): (r: Option<SaveError>)
    ensures r.None? <==> post(CronJobs.ToPost(d)).Some? && 200 <= post(CronJobs.ToPost(d)).value < 300
  {
    match post(CronJobs.ToPost(d))
    case None => Some(PostFailed)
    case Some(status) => if 200 <= status < 300 then None else Some(BadStatus(status))
  }

  /** The first upload error in list order, if any. */
  function FirstSaveError(ds: seq<AlarmData>, post: CronJobs.AlarmDataForPost -> Option<int>): (r: Option<SaveError>)
    ensures r.None? <==> forall k :: 0 <= k < |ds| ==> SaveDetail(ds[k], post).None?
    ensures r.Some? ==> exists k :: 0 <= k < |ds| && SaveDetail(ds[k], post) == r
    decreases |ds|
  {
    if ds == [] then None
    else
      var front := ds[..|ds| - 1];
      var first := FirstSaveError(front, post);
      assert forall k :: 0 <= k < |front| ==> front[k] == ds[k];
      if first.Some? then first else SaveDetail(ds[|ds| - 1], post)
  }

  /** What ProcessAlarmData returns. */
  datatype ProcessError = DecodeFailed | SaveFailed(cause: SaveError)

  /**
   * ProcessAlarmData: no data is no error; undecodable data is an error; otherwise every
   * detail is uploaded and one failed upload, if any, is reported.
   */
  method ProcessAlarmData(data: Bytes, decode: Bytes -> Option<seq<AlarmData>>, post: CronJobs.AlarmDataForPost -> Option<int>)
    returns (err: Option<ProcessError>, uploaded: seq<CronJobs.AlarmDataForPost>)
    ensures |data| == 0 ==> err.None? && uploaded == []
    ensures |data| > 0 && decode(data).None? ==> err == Some(DecodeFailed) && uploaded == []
    ensures |data| > 0 && decode(data).Some? ==>
      && |uploaded| == |decode(data).value|
      && (forall k :: 0 <= k < |uploaded| ==> uploaded[k] == CronJobs.ToPost(decode(data).value[k]))
      && (err.None? <==> forall k :: 0 <= k < |decode(data).value| ==> SaveDetail(decode(data).value[k], post).None?)
      && (err.Some? ==> err.value.SaveFailed? && Some(err.value.cause) == FirstSaveError(decode(data).value, post))
  {
    uploaded := [];
    if |data| == 0 {
      return None, [];
    }
    var decoded := decode(data);
    if decoded.None? {
      return Some(DecodeFailed), [];
    }
    var details := decoded.value;
    var first: Option<SaveError> := None;
    for i := 0 to |details|
      invariant |uploaded| == i
      invariant forall k :: 0 <= k < i ==> uploaded[k] == CronJobs.ToPost(details[k])
      invariant first == FirstSaveError(details[..i], post)
    {
      uploaded := uploaded + [CronJobs.ToPost(details[i])];
      var e := SaveDetail(details[i], post);
      assert details[..i + 1][..i] == details[..i];
      if first.None? && e.Some? {
        first := e;
      }
    }
    assert details[..|details|] == details;
    err := if first.Some? then Some(SaveFailed(first.value)) else None;
  }
}

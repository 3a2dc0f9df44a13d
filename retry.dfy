/** The retry loop of `HaloITSMAPI.make_request`, in both client revisions,
    over a scripted server: attempt `k` gets the reply `reply(k)`, and the
    token endpoint is asked through `token(0)` before the loop and through
    `token(k + 1)` when attempt `k` answered 401. The loop's effects (requests
    sent, token fetches, backoff sleeps) are recorded in a trace. */
module Retry {
  import opened PyValue
  import opened Errors
  import opened TokenCache

  /** The current revision (`icon_haloitsm`) and the older one (`komand_haloitsm`). */
  datatype Flavour = Icon | Komand

  /** What `response.json()` makes of a body. */
  datatype Body = Json(value: Value) | NotJson

  /** What `requests.request` does for one attempt: a response (with the
      text `str(e)` of the HTTPError `raise_for_status` would raise), a
      `Timeout`, any other `RequestException`, or an exception `requests`
      does not define. */
  datatype Reply =
    | Response(status: int, text: string, body: Body, httpError: string)
    | TimedOut(message: string)
    | Failed(message: string)
    | Crashed(typeName: string, message: string)

  /** `raise_for_status` raises for client (4xx) and server (5xx) errors. */
  predicate RaisesForStatus(status: int) {
    400 <= status < 600
  }

  /** A reply the loop returns from at once. */
  predicate Succeeds(r: Reply) {
    r.Response? && !RaisesForStatus(r.status)
  }

  /** The request as `requests.request` receives it (headers apart). */
  datatype Request = Request(verb: string, url: string, params: Value, json: Value, timeout: int)

  datatype Event =
    | TokenFetch(call: nat)
    | Send(attempt: nat, request: Request, authorization: string)
    | Sleep(seconds: nat)

  datatype Server = Server(reply: nat -> Reply, token: nat -> TokenCall)

  /** The `Authorization` header (section 2.1 of RFC 6750). */
  function Authorization(token: Value): string {
    "Bearer " + PyStr(token)
  }

  /** The request timeout: the icon client takes it as an argument, the
      komand client always passes 60 seconds. */
  function TimeoutFor(fl: Flavour, timeout: int): int {
    if fl == Icon then timeout else 60
  }

  datatype Kind = SendKind | FetchKind | SleepKind

  function Number(e: Event, kind: Kind): seq<nat> {
    match e
    case TokenFetch(i) => if kind == FetchKind then [i] else []
    case Send(i, _, _) => if kind == SendKind then [i] else []
    case Sleep(s) => if kind == SleepKind then [s] else []
  }

  /** The attempt numbers, token-call numbers or sleep lengths of a trace, in order. */
  function Project(t: seq<Event>, kind: Kind): seq<nat> {
    if t == [] then [] else Number(t[0], kind) + Project(t[1..], kind)
  }

  function Sent(t: seq<Event>): seq<nat> { Project(t, SendKind) }
  function Fetched(t: seq<Event>): seq<nat> { Project(t, FetchKind) }
  function Slept(t: seq<Event>): seq<nat> { Project(t, SleepKind) }

  lemma {:induction false} ProjectAppend(a: seq<Event>, b: seq<Event>, kind: Kind)
    ensures Project(a + b, kind) == Project(a, kind) + Project(b, kind)
  {
    if a == [] {
      assert a + b == b;
    } else {
      assert (a + b)[1..] == a[1..] + b;
      ProjectAppend(a[1..], b, kind);
    }
  }

  lemma ProjectOne(e: Event, kind: Kind)
    ensures Project([e], kind) == Number(e, kind)
  {
    assert [e][1..] == [];
  }

  /** `response.json()`, or `response.text` when the body is not JSON. */
  function Payload(r: Reply): Value
    requires r.Response?
  {
    match r.body
    case Json(v) => v
    case NotJson => Str(r.text)
  }

  const ReturnedAnError := "HaloITSM API returned an error: "
  const ReportedStatus := "Status: unknown, Response: "
  const UnableToConnect := "Unable to connect to HaloITSM API: "
  const UnknownHttpError := "HTTP unknown error"
  const UnknownError := "Unknown error"
  const NoStatus := "None"
  const TimeoutCause := "Request timeout"
  const NoResponseWithin := "HaloITSM API did not respond within "
  const CheckConnectivity := " seconds. Check network connectivity and server URL."
  const RequestFailed := "Request failed"
  const CrashCause := "Unexpected error: "
  const CrashText := "An unexpected error occurred: "

  /** The PluginException a failed final attempt raises. The icon client reads
      the status from `e.response`, a failed `Response`, which is falsy: it
      always reports "unknown" and the text `str(e)`. */
  function Failure(fl: Flavour, r: Reply, timeout: int): (e: Error)
    requires !Succeeds(r) && !(fl == Komand && r.Crashed?)
    ensures e.Plugin?
    ensures fl == Icon && r.Response? ==>
      e.cause == UnknownHttpError
      && |e.assistance| <= |ReturnedAnError| + 200
      && |e.data| <= |ReportedStatus| + 500
      && (r.httpError != "" ==> e.data == ReportedStatus + Take(r.httpError, 500))
    ensures fl == Komand && r.Response? ==>
      e.cause == "HTTP " + IntToStr(r.status) + " error" && e.assistance == ReturnedAnError + r.text
    ensures r.TimedOut? ==> e.cause == (if fl == Icon then TimeoutCause else RequestFailed)
    ensures r.Failed? ==> e.cause == RequestFailed && e.assistance == UnableToConnect + r.message
    ensures !r.Response? ==> e.data == r.message
  {
    match r
    case Response(_, text, _, err) =>
      if fl == Icon then
        Plugin(UnknownHttpError,
               ReturnedAnError + (if err != "" then Take(err, 200) else UnknownError),
               ReportedStatus + (if err != "" then Take(err, 500) else NoStatus))
      else
        Plugin("HTTP " + IntToStr(r.status) + " error", ReturnedAnError + text, err)
    case TimedOut(m) =>
      if fl == Icon then
        Plugin(TimeoutCause, NoResponseWithin + IntToStr(timeout) + CheckConnectivity, m)
      else
        Plugin(RequestFailed, UnableToConnect + m, m)
    case Failed(m) => Plugin(RequestFailed, UnableToConnect + m, m)
    case Crashed(t, m) => Plugin(CrashCause + t, CrashText + m, m)
  }

  /** How one attempt ends: the method returns or raises, or the loop goes on
      to the next attempt with a (possibly new) header. */
  datatype Step =
    | Finish(cache: Cache, result: Result<Value>, events: seq<Event>)
    | Again(cache: Cache, authorization: string, events: seq<Event>)

  function FetchEvent(f: Fetch, call: nat): seq<Event> {
    if f.network then [TokenFetch(call)] else []
  }

  /** Appending one event to a trace appends its number, for every kind. */
  lemma Snoc(t: seq<Event>, e: Event)
    ensures Sent(t + [e]) == Sent(t) + Number(e, SendKind)
    ensures Slept(t + [e]) == Slept(t) + Number(e, SleepKind)
    ensures Fetched(t + [e]) == Fetched(t) + Number(e, FetchKind)
  {
    ProjectAppend(t, [e], SendKind);
    ProjectAppend(t, [e], SleepKind);
    ProjectAppend(t, [e], FetchKind);
    ProjectOne(e, SendKind);
    ProjectOne(e, SleepKind);
    ProjectOne(e, FetchKind);
  }

  /** The four event lists one attempt can leave, with their projections. */
  lemma SendOnly(k: nat, req: Request, auth: string)
    ensures var ev := [Send(k, req, auth)];
      Sent(ev) == [k] && Slept(ev) == [] && Fetched(ev) == []
  {
    Snoc([], Send(k, req, auth));
    assert [] + [Send(k, req, auth)] == [Send(k, req, auth)];
  }

  lemma SendFetch(k: nat, req: Request, auth: string)
    ensures var ev := [Send(k, req, auth), TokenFetch(k + 1)];
      Sent(ev) == [k] && Slept(ev) == [] && Fetched(ev) == [k + 1]
  {
    SendOnly(k, req, auth);
    Snoc([Send(k, req, auth)], TokenFetch(k + 1));
    assert [Send(k, req, auth)] + [TokenFetch(k + 1)] == [Send(k, req, auth), TokenFetch(k + 1)];
  }

  lemma SendSleep(k: nat, req: Request, auth: string)
    ensures var ev := [Send(k, req, auth), Sleep(k + 1)];
      Sent(ev) == [k] && Slept(ev) == [k + 1] && Fetched(ev) == []
  {
    SendOnly(k, req, auth);
    Snoc([Send(k, req, auth)], Sleep(k + 1));
    assert [Send(k, req, auth)] + [Sleep(k + 1)] == [Send(k, req, auth), Sleep(k + 1)];
  }

  lemma SendFetchSleep(k: nat, req: Request, auth: string)
    ensures var ev := [Send(k, req, auth), TokenFetch(k + 1), Sleep(k + 1)];
      Sent(ev) == [k] && Slept(ev) == [k + 1] && Fetched(ev) == [k + 1]
  {
    SendFetch(k, req, auth);
    Snoc([Send(k, req, auth), TokenFetch(k + 1)], Sleep(k + 1));
    assert [Send(k, req, auth), TokenFetch(k + 1)] + [Sleep(k + 1)] == [Send(k, req, auth), TokenFetch(k + 1), Sleep(k + 1)];
  }

  /** The body of the `for attempt` loop for attempt `k` of `n`. */
  function Attempt(fl: Flavour, c: Cache, auth: string, k: nat, n: int, req: Request, srv: Server): (s: Step)
    requires k < n
    ensures Sent(s.events) == [k]
    ensures s.events[0] == Send(k, req, auth)
    // the loop only goes on when another attempt remains, sleeping at most once
    ensures s.Again? ==> k + 1 < n
    ensures Slept(s.events) == [] || (s.Again? && Slept(s.events) == [k + 1])
    // the token endpoint is asked, as call k + 1, exactly after a 401 on a non-final attempt
    ensures Fetched(s.events) == [] || Fetched(s.events) == [k + 1]
    ensures Fetched(s.events) != [] <==> srv.reply(k).Response? && srv.reply(k).status == 401 && k < n - 1
    ensures Fetched(s.events) == [] ==> s.cache == c
    // the method returns a value only for a reply that does not raise
    ensures s.Finish? && s.result.Ok? ==> Succeeds(srv.reply(k)) && s.result.value == Payload(srv.reply(k))
    // the icon client raises only on the final attempt
    ensures fl == Icon && s.Finish? && s.result.Err? ==> k == n - 1
  {
    var r := srv.reply(k);
    if r.Response? && r.status == 401 && k < n - 1 then
      // the token is cleared, so the refresh always reaches the endpoint
      var f := GetAccessToken(Cache(None, c.expiresAt), srv.token(k + 1));
      match f.result
      case Ok(t) =>
        SendFetch(k, req, auth);
        Again(f.cache, Authorization(t), [Send(k, req, auth), TokenFetch(k + 1)])
      case Err(e) =>
        if fl == Icon then
          // the catch-all handler swallows the refresh failure and backs off
          SendFetchSleep(k, req, auth);
          Again(f.cache, auth, [Send(k, req, auth), TokenFetch(k + 1), Sleep(k + 1)])
        else
          SendFetch(k, req, auth);
          Finish(f.cache, Err(e), [Send(k, req, auth), TokenFetch(k + 1)])
    else
      SendOnly(k, req, auth);
      if Succeeds(r) then
        Finish(c, Ok(Payload(r)), [Send(k, req, auth)])
      else if fl == Komand && r.Crashed? then
        // no handler in the komand client catches it
        Finish(c, Err(Other(r.typeName, r.message)), [Send(k, req, auth)])
      else if k == n - 1 then
        Finish(c, Err(Failure(fl, r, req.timeout)), [Send(k, req, auth)])
      else
        SendSleep(k, req, auth);
        Again(c, auth, [Send(k, req, auth), Sleep(k + 1)])
  }

  /** The outcome of the loop or of the whole method: the cache it leaves,
      the value returned or the exception raised, and the trace. */
  datatype Run = Run(cache: Cache, result: Result<Value>, trace: seq<Event>)

  /** Attempts `k`, `k + 1`, ... up to `n - 1`; falling off the end of
      `range(n)` returns None. */
  function Loop(fl: Flavour, c: Cache, auth: string, k: nat, n: int, req: Request, srv: Server): Run
    decreases if k < n then n - k else 0
  {
    if n <= k then Run(c, Ok(None), [])
    else
      match Attempt(fl, c, auth, k, n, req, srv)
      case Finish(c', res, ev) => Run(c', res, ev)
      case Again(c', auth', ev) =>
        var rest := Loop(fl, c', auth', k + 1, n, req, srv);
        Run(rest.cache, rest.result, ev + rest.trace)
  }

  /** One unfolding of the loop: an attempt, then either the end or the rest. */
  lemma LoopStep(fl: Flavour, c: Cache, auth: string, k: nat, n: int, req: Request, srv: Server)
    requires k < n
    ensures var st := Attempt(fl, c, auth, k, n, req, srv);
      var r := Loop(fl, c, auth, k, n, req, srv);
      && (st.Finish? ==> r == Run(st.cache, st.result, st.events))
      && (st.Again? ==>
            var rest := Loop(fl, st.cache, st.authorization, k + 1, n, req, srv);
            r == Run(rest.cache, rest.result, st.events + rest.trace))
  {
  }

  /** The loop as `make_request` runs it: `trace` holds the events of the
      attempts already made. */
  function LoopFrom(fl: Flavour, c: Cache, auth: string, k: nat, n: int, req: Request, srv: Server,
                    trace: seq<Event>): Run
    decreases if k < n then n - k else 0
  {
    if n <= k then Run(c, Ok(None), trace)
    else
      match Attempt(fl, c, auth, k, n, req, srv)
      case Finish(c', res, ev) => Run(c', res, trace + ev)
      case Again(c', auth', ev) => LoopFrom(fl, c', auth', k + 1, n, req, srv, trace + ev)
  }

  /** Both forms of the loop agree: the trace so far, then the rest. */
  lemma {:induction false} LoopFromIsLoop(fl: Flavour, c: Cache, auth: string, k: nat, n: int, req: Request, srv: Server,
                                          trace: seq<Event>)
    ensures var rest := Loop(fl, c, auth, k, n, req, srv);
      LoopFrom(fl, c, auth, k, n, req, srv, trace) == Run(rest.cache, rest.result, trace + rest.trace)
    decreases if k < n then n - k else 0
  {
    if n <= k {
      assert trace + [] == trace;
    } else {
      var st := Attempt(fl, c, auth, k, n, req, srv);
      if st.Again? {
        var next := Loop(fl, st.cache, st.authorization, k + 1, n, req, srv);
        LoopFromIsLoop(fl, st.cache, st.authorization, k + 1, n, req, srv, trace + st.events);
        Regroup(trace, st.events, next.trace);
      }
    }
  }

  lemma Regroup(a: seq<Event>, b: seq<Event>, c: seq<Event>)
    ensures (a + b) + c == a + (b + c)
  {
  }

  /** At most `n - k` requests are sent, numbered `k, k + 1, ...` in order. */
  lemma {:induction false} LoopSends(fl: Flavour, c: Cache, auth: string, k: nat, n: int, req: Request, srv: Server)
    ensures var s := Sent(Loop(fl, c, auth, k, n, req, srv).trace);
      |s| <= (if k < n then n - k else 0) && forall i :: 0 <= i < |s| ==> s[i] == k + i
    decreases if k < n then n - k else 0
  {
    if k < n {
      var st := Attempt(fl, c, auth, k, n, req, srv);
      var r := Loop(fl, c, auth, k, n, req, srv);
      if st.Again? {
        var rest := Loop(fl, st.cache, st.authorization, k + 1, n, req, srv);
        assert r.trace == st.events + rest.trace;
        LoopSends(fl, st.cache, st.authorization, k + 1, n, req, srv);
        ProjectAppend(st.events, rest.trace, SendKind);
        assert Sent(r.trace) == [k] + Sent(rest.trace);
        forall i | 0 < i < |Sent(r.trace)| ensures Sent(r.trace)[i] == k + i {
          assert Sent(r.trace)[i] == Sent(rest.trace)[i - 1];
        }
      } else {
        assert r.trace == st.events;
      }
    } else {
      assert Sent([]) == [];
    }
  }

  /** Every backoff sleep lasts between `k + 1` and `n - 1` seconds, so the
      final attempt is never followed by one. */
  lemma {:induction false} LoopSleeps(fl: Flavour, c: Cache, auth: string, k: nat, n: int, req: Request, srv: Server)
    ensures forall x :: x in Slept(Loop(fl, c, auth, k, n, req, srv).trace) ==> k < x < n
    decreases if k < n then n - k else 0
  {
    if k < n {
      var st := Attempt(fl, c, auth, k, n, req, srv);
      var r := Loop(fl, c, auth, k, n, req, srv);
      if st.Again? {
        var rest := Loop(fl, st.cache, st.authorization, k + 1, n, req, srv);
        assert r.trace == st.events + rest.trace;
        LoopSleeps(fl, st.cache, st.authorization, k + 1, n, req, srv);
        ProjectAppend(st.events, rest.trace, SleepKind);
        assert Slept(r.trace) == Slept(st.events) + Slept(rest.trace);
      } else {
        assert r.trace == st.events;
      }
    } else {
      assert Slept([]) == [];
    }
  }

  /** Without a token fetch the cache the loop leaves is the one it started with. */
  lemma {:induction false} LoopKeepsCache(fl: Flavour, c: Cache, auth: string, k: nat, n: int, req: Request, srv: Server)
    ensures var r := Loop(fl, c, auth, k, n, req, srv);
      Fetched(r.trace) == [] ==> r.cache == c
    decreases if k < n then n - k else 0
  {
    if k < n {
      var st := Attempt(fl, c, auth, k, n, req, srv);
      var r := Loop(fl, c, auth, k, n, req, srv);
      if st.Again? {
        var rest := Loop(fl, st.cache, st.authorization, k + 1, n, req, srv);
        assert r.trace == st.events + rest.trace && r.cache == rest.cache;
        LoopKeepsCache(fl, st.cache, st.authorization, k + 1, n, req, srv);
        ProjectAppend(st.events, rest.trace, FetchKind);
      } else {
        assert r.trace == st.events && r.cache == st.cache;
      }
    }
  }

  /** The last element of a non-empty trace projection. */
  function Last(s: seq<nat>): nat
    requires s != []
  {
    s[|s| - 1]
  }

  /** With at least one attempt left the loop never falls off its end: a
      returned value is the payload of the last reply, which did not raise. */
  lemma {:induction false} LoopReturns(fl: Flavour, c: Cache, auth: string, k: nat, n: int, req: Request, srv: Server)
    ensures var r := Loop(fl, c, auth, k, n, req, srv);
      var s := Sent(r.trace);
      k < n && r.result.Ok? ==>
      s != [] && Succeeds(srv.reply(Last(s))) && r.result.value == Payload(srv.reply(Last(s)))
    decreases if k < n then n - k else 0
  {
    if k < n {
      LoopStep(fl, c, auth, k, n, req, srv);
      var st := Attempt(fl, c, auth, k, n, req, srv);
      if st.Again? {
        var rest := Loop(fl, st.cache, st.authorization, k + 1, n, req, srv);
        LoopReturns(fl, st.cache, st.authorization, k + 1, n, req, srv);
        ProjectAppend(st.events, rest.trace, SendKind);
        LastAfter(k, Sent(rest.trace));
      }
    }
  }

  /** Prepending keeps the last element of a non-empty sequence. */
  lemma LastAfter(k: nat, s: seq<nat>)
    ensures s != [] ==> Last([k] + s) == Last(s)
  {
  }

  /** The icon client raises only after every attempt was used. */
  lemma {:induction false} LoopRaises(fl: Flavour, c: Cache, auth: string, k: nat, n: int, req: Request, srv: Server)
    ensures var r := Loop(fl, c, auth, k, n, req, srv);
      fl == Icon && k < n && r.result.Err? ==> |Sent(r.trace)| == n - k
    decreases if k < n then n - k else 0
  {
    if k < n {
      var st := Attempt(fl, c, auth, k, n, req, srv);
      var r := Loop(fl, c, auth, k, n, req, srv);
      if st.Again? {
        var rest := Loop(fl, st.cache, st.authorization, k + 1, n, req, srv);
        assert r.trace == st.events + rest.trace && r.result == rest.result;
        LoopRaises(fl, st.cache, st.authorization, k + 1, n, req, srv);
        ProjectAppend(st.events, rest.trace, SendKind);
      } else {
        assert r.trace == st.events && r.result == st.result;
      }
    }
  }

  /** A 401 on a non-final attempt clears the token, fetches a new one,
      rewrites the header and goes straight on to the next attempt: no sleep. */
  lemma UnauthorizedRefreshes(fl: Flavour, c: Cache, auth: string, k: nat, n: int, req: Request, srv: Server)
    requires k < n - 1 && srv.reply(k).Response? && srv.reply(k).status == 401
    requires GetAccessToken(Cache(None, c.expiresAt), srv.token(k + 1)).result.Ok?
    ensures var f := GetAccessToken(Cache(None, c.expiresAt), srv.token(k + 1));
      var rest := Loop(fl, f.cache, Authorization(f.result.value), k + 1, n, req, srv);
      Loop(fl, c, auth, k, n, req, srv)
        == Run(rest.cache, rest.result, [Send(k, req, auth), TokenFetch(k + 1)] + rest.trace)
  {
    var f := GetAccessToken(Cache(None, c.expiresAt), srv.token(k + 1));
    AttemptRefreshes(fl, c, auth, k, n, req, srv);
    LoopStep(fl, c, auth, k, n, req, srv);
  }

  /** The attempt itself: request, refresh, and the new header. */
  lemma AttemptRefreshes(fl: Flavour, c: Cache, auth: string, k: nat, n: int, req: Request, srv: Server)
    requires k < n - 1 && srv.reply(k).Response? && srv.reply(k).status == 401
    requires GetAccessToken(Cache(None, c.expiresAt), srv.token(k + 1)).result.Ok?
    ensures var f := GetAccessToken(Cache(None, c.expiresAt), srv.token(k + 1));
      Attempt(fl, c, auth, k, n, req, srv)
        == Again(f.cache, Authorization(f.result.value), [Send(k, req, auth), TokenFetch(k + 1)])
  {
  }

  /** A 401 on the final attempt goes through `raise_for_status` like any
      other HTTP error. */
  lemma FinalUnauthorizedRaises(fl: Flavour, c: Cache, auth: string, n: nat, req: Request, srv: Server)
    requires 0 < n && srv.reply(n - 1).Response? && srv.reply(n - 1).status == 401
    ensures Loop(fl, c, auth, n - 1, n, req, srv)
      == Run(c, Err(Failure(fl, srv.reply(n - 1), req.timeout)), [Send(n - 1, req, auth)])
  {
  }

  /** In the icon client a failed refresh is caught by the catch-all handler:
      the loop backs off and retries with the old header. */
  lemma IconRefreshFailureRetries(c: Cache, auth: string, k: nat, n: int, req: Request, srv: Server)
    requires k < n - 1 && srv.reply(k).Response? && srv.reply(k).status == 401
    requires GetAccessToken(Cache(None, c.expiresAt), srv.token(k + 1)).result.Err?
    ensures var f := GetAccessToken(Cache(None, c.expiresAt), srv.token(k + 1));
      var rest := Loop(Icon, f.cache, auth, k + 1, n, req, srv);
      Loop(Icon, c, auth, k, n, req, srv)
        == Run(rest.cache, rest.result, [Send(k, req, auth), TokenFetch(k + 1), Sleep(k + 1)] + rest.trace)
  {
  }

  /** The komand client has no catch-all: a failed refresh ends the call. */
  lemma KomandRefreshFailurePropagates(c: Cache, auth: string, k: nat, n: int, req: Request, srv: Server)
    requires k < n - 1 && srv.reply(k).Response? && srv.reply(k).status == 401
    requires GetAccessToken(Cache(None, c.expiresAt), srv.token(k + 1)).result.Err?
    ensures var f := GetAccessToken(Cache(None, c.expiresAt), srv.token(k + 1));
      Loop(Komand, c, auth, k, n, req, srv) == Run(f.cache, f.result, [Send(k, req, auth), TokenFetch(k + 1)])
  {
  }

  /** The komand client lets an exception `requests` does not define escape
      at once; the icon client retries it like any other failure. */
  lemma CrashHandling(c: Cache, auth: string, k: nat, n: int, req: Request, srv: Server)
    requires k < n - 1 && srv.reply(k).Crashed?
    ensures Loop(Komand, c, auth, k, n, req, srv)
      == Run(c, Err(Other(srv.reply(k).typeName, srv.reply(k).message)), [Send(k, req, auth)])
    ensures var rest := Loop(Icon, c, auth, k + 1, n, req, srv);
      Loop(Icon, c, auth, k, n, req, srv) == Run(rest.cache, rest.result, [Send(k, req, auth), Sleep(k + 1)] + rest.trace)
  {
  }

  /** A reply that does not raise is returned at once, as JSON when the body
      parses and as text otherwise. */
  lemma SuccessReturns(fl: Flavour, c: Cache, auth: string, k: nat, n: int, req: Request, srv: Server)
    requires k < n && Succeeds(srv.reply(k))
    ensures Loop(fl, c, auth, k, n, req, srv) == Run(c, Ok(Payload(srv.reply(k))), [Send(k, req, auth)])
    ensures srv.reply(k).body.NotJson? ==> Payload(srv.reply(k)) == Str(srv.reply(k).text)
  {
  }

  /** A failure the handlers retry: an HTTP error other than 401, a timeout,
      a transport error, and (icon only) any other exception. */
  predicate Retried(fl: Flavour, r: Reply) {
    !Succeeds(r) && !(r.Response? && r.status == 401) && !(fl == Komand && r.Crashed?)
  }

  /** One attempt whose reply is retried: the last one raises it, any other
      sleeps and goes on with the same cache and header. */
  lemma AttemptRetried(fl: Flavour, c: Cache, auth: string, k: nat, n: int, req: Request, srv: Server)
    requires k < n && Retried(fl, srv.reply(k))
    ensures k == n - 1 ==>
      Attempt(fl, c, auth, k, n, req, srv) == Finish(c, Err(Failure(fl, srv.reply(k), req.timeout)), [Send(k, req, auth)])
    ensures k < n - 1 ==> Attempt(fl, c, auth, k, n, req, srv) == Again(c, auth, [Send(k, req, auth), Sleep(k + 1)])
  {
  }

  /** When every remaining attempt fails in a retried way, every attempt is
      made, the cache is untouched, and the last failure is raised. */
  lemma {:induction false} PersistentFailure(fl: Flavour, c: Cache, auth: string, k: nat, n: int, req: Request, srv: Server)
    requires k < n
    requires forall j :: k <= j < n ==> Retried(fl, srv.reply(j))
    ensures var r := Loop(fl, c, auth, k, n, req, srv);
      && Retried(fl, srv.reply(n - 1))
      && r.result == Err(Failure(fl, srv.reply(n - 1), req.timeout))
      && r.cache == c
      && |Sent(r.trace)| == n - k
    decreases n - k
  {
    var r := Loop(fl, c, auth, k, n, req, srv);
    var reply := srv.reply(k);
    LoopStep(fl, c, auth, k, n, req, srv);
    AttemptRetried(fl, c, auth, k, n, req, srv);
    if k == n - 1 {
      SendOnly(k, req, auth);
    } else {
      var ev := [Send(k, req, auth), Sleep(k + 1)];
      var rest := Loop(fl, c, auth, k + 1, n, req, srv);
      assert r == Run(rest.cache, rest.result, ev + rest.trace);
      PersistentFailure(fl, c, auth, k + 1, n, req, srv);
      SendSleep(k, req, auth);
      ProjectAppend(ev, rest.trace, SendKind);
    }
  }

  /** The backoff sleeps `a, a + 1, ..., n - 1` seconds. */
  function Backoffs(a: nat, n: int): (r: seq<nat>)
    ensures |r| == (if a < n then n - a else 0)
    ensures forall i :: 0 <= i < |r| ==> r[i] == a + i
    decreases if a < n then n - a else 0
  {
    if n <= a then [] else [a] + Backoffs(a + 1, n)
  }

  /** Under the same failures, attempt `j` is followed by a sleep of `j + 1`
      seconds, except the last. */
  lemma {:induction false} PersistentSleeps(fl: Flavour, c: Cache, auth: string, k: nat, n: int, req: Request, srv: Server)
    requires k < n
    requires forall j :: k <= j < n ==> Retried(fl, srv.reply(j))
    ensures Slept(Loop(fl, c, auth, k, n, req, srv).trace) == Backoffs(k + 1, n)
    decreases n - k
  {
    var r := Loop(fl, c, auth, k, n, req, srv);
    var reply := srv.reply(k);
    LoopStep(fl, c, auth, k, n, req, srv);
    AttemptRetried(fl, c, auth, k, n, req, srv);
    if k == n - 1 {
      SendOnly(k, req, auth);
    } else {
      var ev := [Send(k, req, auth), Sleep(k + 1)];
      var rest := Loop(fl, c, auth, k + 1, n, req, srv);
      assert r == Run(rest.cache, rest.result, ev + rest.trace);
      PersistentSleeps(fl, c, auth, k + 1, n, req, srv);
      SendSleep(k, req, auth);
      ProjectAppend(ev, rest.trace, SleepKind);
    }
  }

  /** `make_request`: the first token call happens before the loop and outside
      its handlers, so its failure propagates in both revisions. */
  function MakeRequest(fl: Flavour, c: Cache, url: string, verb: string, params: Value, json: Value,
                       retryCount: int, timeout: int, srv: Server): (r: Run)
    // at most retry_count requests, numbered 0, 1, ... in order
    ensures |Sent(r.trace)| <= (if retryCount < 0 then 0 else retryCount)
    ensures forall i :: 0 <= i < |Sent(r.trace)| ==> Sent(r.trace)[i] == i
    // a failing initial token call stops everything before any request
    ensures GetAccessToken(c, srv.token(0)).result.Err? ==>
      r.result == GetAccessToken(c, srv.token(0)).result && Sent(r.trace) == []
    // range(retry_count) is empty: the method returns None
    ensures GetAccessToken(c, srv.token(0)).result.Ok? && retryCount <= 0 ==> r.result == Ok(None)
  {
    var f := GetAccessToken(c, srv.token(0));
    var pre := FetchEvent(f, 0);
    assert Sent(pre) == [] by {
      if f.network { ProjectOne(TokenFetch(0), SendKind); }
    }
    match f.result
    case Err(e) => Run(f.cache, Err(e), pre)
    case Ok(t) =>
      var req := Request(verb, url, params, json, TimeoutFor(fl, timeout));
      var rest := Loop(fl, f.cache, Authorization(t), 0, retryCount, req, srv);
      LoopSends(fl, f.cache, Authorization(t), 0, retryCount, req, srv);
      ProjectAppend(pre, rest.trace, SendKind);
      Run(rest.cache, rest.result, pre + rest.trace)
  }

  /** Once the token is obtained, `make_request` is the loop from attempt 0,
      after the token event, which sends nothing. */
  lemma MakeRequestUnfold(fl: Flavour, c: Cache, url: string, verb: string, params: Value, json: Value,
                          retryCount: int, timeout: int, srv: Server)
    requires GetAccessToken(c, srv.token(0)).result.Ok?
    ensures var f := GetAccessToken(c, srv.token(0));
      var rest := Loop(fl, f.cache, Authorization(f.result.value), 0, retryCount,
                       Request(verb, url, params, json, TimeoutFor(fl, timeout)), srv);
      var r := MakeRequest(fl, c, url, verb, params, json, retryCount, timeout, srv);
      r.result == rest.result && Sent(r.trace) == Sent(rest.trace)
  {
    var f := GetAccessToken(c, srv.token(0));
    var pre := FetchEvent(f, 0);
    assert Sent(pre) == [] by {
      if f.network { ProjectOne(TokenFetch(0), SendKind); }
    }
    var req := Request(verb, url, params, json, TimeoutFor(fl, timeout));
    var rest := Loop(fl, f.cache, Authorization(f.result.value), 0, retryCount, req, srv);
    assert MakeRequest(fl, c, url, verb, params, json, retryCount, timeout, srv)
      == Run(rest.cache, rest.result, pre + rest.trace);
    ProjectAppend(pre, rest.trace, SendKind);
  }

  /** With at least one attempt, a value `make_request` returns is the payload
      of the last reply, which did not raise. */
  lemma MakeRequestReturns(fl: Flavour, c: Cache, url: string, verb: string, params: Value, json: Value,
                           retryCount: int, timeout: int, srv: Server)
    ensures var r := MakeRequest(fl, c, url, verb, params, json, retryCount, timeout, srv);
      var s := Sent(r.trace);
      0 < retryCount && r.result.Ok? ==>
      s != [] && Succeeds(srv.reply(Last(s))) && r.result.value == Payload(srv.reply(Last(s)))
  {
    var f := GetAccessToken(c, srv.token(0));
    if f.result.Ok? {
      MakeRequestUnfold(fl, c, url, verb, params, json, retryCount, timeout, srv);
      LoopReturns(fl, f.cache, Authorization(f.result.value), 0, retryCount,
                  Request(verb, url, params, json, TimeoutFor(fl, timeout)), srv);
    }
  }

  /** The icon client raises, once the token is obtained, only after all
      `retry_count` requests. */
  lemma MakeRequestRaises(c: Cache, url: string, verb: string, params: Value, json: Value,
                          retryCount: int, timeout: int, srv: Server)
    ensures var r := MakeRequest(Icon, c, url, verb, params, json, retryCount, timeout, srv);
      0 < retryCount && r.result.Err? && GetAccessToken(c, srv.token(0)).result.Ok? ==>
      |Sent(r.trace)| == retryCount
  {
    var f := GetAccessToken(c, srv.token(0));
    if f.result.Ok? {
      MakeRequestUnfold(Icon, c, url, verb, params, json, retryCount, timeout, srv);
      LoopRaises(Icon, f.cache, Authorization(f.result.value), 0, retryCount,
                 Request(verb, url, params, json, TimeoutFor(Icon, timeout)), srv);
    }
  }
}

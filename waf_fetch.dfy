/** The guarded fetch of waf-fetch.js: one WAF session per origin, a challenge
    classifier, header merging, and a protocol that retries a challenged
    request exactly once with a freshly solved cookie.

    The transport is an oracle: `transport(k)` is what the k-th request of
    one call receives (a response, or the error the transport threw).
    Likewise `solver(k)` is the outcome of the solve the k-th cookie read
    of the call may wait for. */
module WafFetch {
  import opened Common
  import opened WafSessions

  const UserAgent: string := "Mozilla/5.0 (Macintosh; Intel Mac OS X 10_15_7) AppleWebKit/537.36 (KHTML, like Gecko) Chrome/131.0.0.0 Safari/537.36"

  /** A parsed URL: scheme, host (with its port, if any) and the rest. */
  datatype Url = Url(scheme: string, host: string, path: string)

  function Href(u: Url): string {
    u.scheme + "://" + u.host + u.path
  }

  /** `new URL(url).origin + '/'`: the key of the session registry. */
  function OriginKey(u: Url): (k: string)
    ensures u.scheme + "://" + u.host <= k && |k| == |u.scheme| + |u.host| + 4 && k[|k| - 1] == '/'
  {
    u.scheme + "://" + u.host + "/"
  }

  /** Two URLs share a session exactly when they have the same scheme and host. */
  lemma OriginKeyInjective(u: Url, v: Url)
    requires ':' !in u.scheme && ':' !in v.scheme
    ensures OriginKey(u) == OriginKey(v) <==> u.scheme == v.scheme && u.host == v.host
  {
    if OriginKey(u) == OriginKey(v) {
      var k := OriginKey(u);
      var a, b := u.scheme, v.scheme;
      assert k[|a|] == ':' && k[|b|] == ':';
      assert forall j :: 0 <= j < |a| ==> k[j] == a[j] && a[j] in a;
      assert forall j :: 0 <= j < |b| ==> k[j] == b[j] && b[j] in b;
      assert |a| == |b|;
      assert a == k[..|a|] == b;
      assert u.host == k[|a| + 3..|k| - 1] == v.host;
    }
  }

  datatype Response = Response(status: int, contentType: Option<string>)

  /** `looksLikeWafChallenge`: status 403, or a content type mentioning
      `text/html`; a missing content type counts as the empty string. */
  function LooksLikeWafChallenge(r: Response): (b: bool)
    ensures b <==> r.status == 403 || (r.contentType.Some? && Occurs("text/html", r.contentType.value))
    ensures r.contentType.None? ==> (b <==> r.status == 403)
  {
    r.status == 403 || Includes(r.contentType.GetOr(""), "text/html")
  }

  type Headers = map<string, string>

  /** `{ 'User-Agent': USER_AGENT, ...(options.headers || {}), Cookie: cookie }` */
  function MergeHeaders(caller: Option<Headers>, cookie: string): (h: Headers)
    ensures "Cookie" in h && h["Cookie"] == cookie && "User-Agent" in h
  {
    map["User-Agent" := UserAgent] + caller.GetOr(map[]) + map["Cookie" := cookie]
  }

  /** The merged headers hold the caller's headers, a default `User-Agent` the
      caller may override, and the session cookie, which wins over the caller's. */
  lemma MergeHeadersContents(caller: Option<Headers>, cookie: string)
    ensures var h := MergeHeaders(caller, cookie);
      (forall k :: k in h <==> k in caller.GetOr(map[]) || k == "User-Agent" || k == "Cookie") &&
      h["Cookie"] == cookie &&
      h["User-Agent"] == (if caller.Some? && "User-Agent" in caller.value then caller.value["User-Agent"] else UserAgent) &&
      forall k :: k in caller.GetOr(map[]) && k != "Cookie" ==> h[k] == caller.GetOr(map[])[k]
  {
  }

  datatype Request = Request(url: Url, headers: Headers)

  /** The observable steps of one guarded fetch. */
  datatype Step = CookieRead(header: Result<string>) | Sent(request: Request) | Invalidated

  function Requests(trace: seq<Step>): (rs: seq<Request>)
    ensures |rs| <= |trace|
  {
    if trace == [] then []
    else (if trace[0].Sent? then [trace[0].request] else []) + Requests(trace[1..])
  }

  function Invalidations(trace: seq<Step>): nat {
    if trace == [] then 0
    else (if trace[0].Invalidated? then 1 else 0) + Invalidations(trace[1..])
  }

  lemma StepCounts(s: Step)
    ensures Requests([s]) == if s.Sent? then [s.request] else []
    ensures Invalidations([s]) == if s.Invalidated? then 1 else 0
  {
    assert [s][1..] == [];
  }

  lemma {:induction false} TraceAppend(a: seq<Step>, b: seq<Step>)
    ensures Requests(a + b) == Requests(a) + Requests(b)
    ensures Invalidations(a + b) == Invalidations(a) + Invalidations(b)
    decreases |a|
  {
    if a == [] {
      assert a + b == b;
    } else {
      var head := if a[0].Sent? then [a[0].request] else [];
      assert (a + b)[0] == a[0];
      assert (a + b)[1..] == a[1..] + b;
      TraceAppend(a[1..], b);
      calc {
        Requests(a + b);
        head + Requests(a[1..] + b);
        head + (Requests(a[1..]) + Requests(b));
        (head + Requests(a[1..])) + Requests(b);
        Requests(a) + Requests(b);
      }
    }
  }

  datatype Exchange = Exchange(result: Result<Response>, trace: seq<Step>, session: SessionState)

  /** An answer that is a WAF challenge; a transport error is not one. */
  predicate Challenged(response: Result<Response>) {
    response.Ok? && LooksLikeWafChallenge(response.value)
  }

  /** `wafFetch` once its session is found: read the cookie, send; on a
      challenge invalidate, read a fresh cookie, send once more, and throw if
      that is challenged too. */
  function GuardedFetch(st: SessionState, url: Url, headers: Option<Headers>,
                        solver: nat -> SolveOutcome, transport: nat -> Result<Response>): (x: Exchange)
    ensures x.session.launches <= st.launches + 2
    ensures SingleFlight(st) ==> SingleFlight(x.session)
  {
    var read := CookieHeaderStep(st, solver(0));
    var c1 := read.0;
    if c1.Err? then Exchange(Err(c1.error), [CookieRead(c1)], read.1)
    else
      var sent := [CookieRead(c1), Sent(Request(url, MergeHeaders(headers, c1.value)))];
      if !Challenged(transport(0)) then Exchange(transport(0), sent, read.1)
      else RetryExchange(read.1, url, headers, solver, transport, sent)
  }

  /** The challenged branch of `wafFetch`: invalidate, read a fresh cookie, retry once. */
  function RetryExchange(st: SessionState, url: Url, headers: Option<Headers>,
                   solver: nat -> SolveOutcome, transport: nat -> Result<Response>, sent: seq<Step>): (x: Exchange)
    ensures x.session.launches <= st.launches + 1
    ensures SingleFlight(st) ==> SingleFlight(x.session)
  {
    var read := CookieHeaderStep(InvalidateStep(st), solver(1));
    var c2 := read.0;
    var resent := sent + [Invalidated, CookieRead(c2)];
    if c2.Err? then Exchange(Err(c2.error), resent, read.1)
    else
      Exchange(if Challenged(transport(1)) then Err(StillChallenged(Href(url))) else transport(1),
               resent + [Sent(Request(url, MergeHeaders(headers, c2.value)))], read.1)
  }

  /** The cookie the first read of a call yields. */
  function FirstCookie(st: SessionState, solver: nat -> SolveOutcome): Result<string> {
    CookieHeaderStep(st, solver(0)).0
  }

  /** The cookie the read after the invalidation yields. */
  function FreshCookie(st: SessionState, solver: nat -> SolveOutcome): Result<string> {
    CookieHeaderStep(InvalidateStep(CookieHeaderStep(st, solver(0)).1), solver(1)).0
  }

  /** Without a cookie nothing is sent and the read's error is the result. */
  lemma NoCookieTrace(st: SessionState, url: Url, headers: Option<Headers>,
                      solver: nat -> SolveOutcome, transport: nat -> Result<Response>)
    requires FirstCookie(st, solver).Err?
    ensures var x := GuardedFetch(st, url, headers, solver, transport);
      Requests(x.trace) == [] && Invalidations(x.trace) == 0 &&
      x.result == Err(FirstCookie(st, solver).error)
  {
    StepCounts(CookieRead(FirstCookie(st, solver)));
  }

  /** An unchallenged first answer: one request, no invalidation, that answer is the result. */
  lemma UnchallengedTrace(st: SessionState, url: Url, headers: Option<Headers>,
                          solver: nat -> SolveOutcome, transport: nat -> Result<Response>)
    requires FirstCookie(st, solver).Ok? && !Challenged(transport(0))
    ensures var x := GuardedFetch(st, url, headers, solver, transport);
      Requests(x.trace) == [Request(url, MergeHeaders(headers, FirstCookie(st, solver).value))] &&
      Invalidations(x.trace) == 0 && x.result == transport(0)
  {
    var c1 := FirstCookie(st, solver);
    var read, send := CookieRead(c1), Sent(Request(url, MergeHeaders(headers, c1.value)));
    assert [read, send] == [read] + [send];
    StepCounts(read);
    StepCounts(send);
    TraceAppend([read], [send]);
  }

  /** A challenged first answer: the first request, then the challenged branch. */
  lemma ChallengedTrace(st: SessionState, url: Url, headers: Option<Headers>,
                        solver: nat -> SolveOutcome, transport: nat -> Result<Response>)
    requires FirstCookie(st, solver).Ok? && Challenged(transport(0))
    ensures var c1 := FirstCookie(st, solver);
      var c2 := FreshCookie(st, solver);
      var req1 := Request(url, MergeHeaders(headers, c1.value));
      var x := GuardedFetch(st, url, headers, solver, transport);
      Invalidations(x.trace) == 1 &&
      |x.trace| >= 4 && x.trace[1] == Sent(req1) && x.trace[2] == Invalidated && x.trace[3] == CookieRead(c2) &&
      (c2.Err? ==> Requests(x.trace) == [req1] && x.result == Err(c2.error)) &&
      (c2.Ok? ==> Requests(x.trace) == [req1, Request(url, MergeHeaders(headers, c2.value))] &&
                  x.result == if Challenged(transport(1)) then Err(StillChallenged(Href(url))) else transport(1))
  {
    var c1 := FirstCookie(st, solver);
    var read, send := CookieRead(c1), Sent(Request(url, MergeHeaders(headers, c1.value)));
    var sent := [read, send];
    assert sent == [read] + [send];
    StepCounts(read);
    StepCounts(send);
    TraceAppend([read], [send]);
    RetryExchangeTrace(CookieHeaderStep(st, solver(0)).1, url, headers, solver, transport, sent);
    assert GuardedFetch(st, url, headers, solver, transport).trace[..4] == sent + [Invalidated, CookieRead(FreshCookie(st, solver))];
  }

  /** The requests and invalidations of the challenged branch. */
  lemma RetryExchangeTrace(st: SessionState, url: Url, headers: Option<Headers>,
                           solver: nat -> SolveOutcome, transport: nat -> Result<Response>, sent: seq<Step>)
    ensures var x := RetryExchange(st, url, headers, solver, transport, sent);
      var c2 := CookieHeaderStep(InvalidateStep(st), solver(1)).0;
      Invalidations(x.trace) == Invalidations(sent) + 1 &&
      |x.trace| >= |sent| + 2 && x.trace[..|sent| + 2] == sent + [Invalidated, CookieRead(c2)] &&
      (c2.Err? ==> Requests(x.trace) == Requests(sent)) &&
      (c2.Ok? ==> Requests(x.trace) == Requests(sent) + [Request(url, MergeHeaders(headers, c2.value))])
  {
    var c2 := CookieHeaderStep(InvalidateStep(st), solver(1)).0;
    var tail := [Invalidated, CookieRead(c2)];
    assert tail == [Invalidated] + [CookieRead(c2)];
    StepCounts(Invalidated);
    StepCounts(CookieRead(c2));
    TraceAppend([Invalidated], [CookieRead(c2)]);
    TraceAppend(sent, tail);
    var t2 := sent + tail;
    if c2.Ok? {
      var last := [Sent(Request(url, MergeHeaders(headers, c2.value)))];
      StepCounts(last[0]);
      TraceAppend(t2, last);
      assert (t2 + last)[..|sent| + 2] == t2;
    }
  }

  /** At most two requests and one invalidation per call, all to the same URL with the merged headers. */
  lemma AtMostOneRetry(st: SessionState, url: Url, headers: Option<Headers>,
                       solver: nat -> SolveOutcome, transport: nat -> Result<Response>)
    ensures var x := GuardedFetch(st, url, headers, solver, transport);
      |Requests(x.trace)| <= 2 && Invalidations(x.trace) <= 1 &&
      forall r :: r in Requests(x.trace) ==>
        r.url == url && "Cookie" in r.headers && r.headers == MergeHeaders(headers, r.headers["Cookie"])
  {
    var c1 := FirstCookie(st, solver);
    if c1.Err? {
      NoCookieTrace(st, url, headers, solver, transport);
    } else {
      if !Challenged(transport(0)) {
        UnchallengedTrace(st, url, headers, solver, transport);
      } else {
        ChallengedTrace(st, url, headers, solver, transport);
      }
    }
  }

  /** The first request carries the cached cookies, or those of the solve it
      waited for; without a cookie no request is sent. An unchallenged first
      answer is the result, after one request and no invalidation. */
  lemma UnchallengedFirstAnswer(st: SessionState, url: Url, headers: Option<Headers>,
                                solver: nat -> SolveOutcome, transport: nat -> Result<Response>)
    ensures var x := GuardedFetch(st, url, headers, solver, transport);
      var c1 := FirstCookie(st, solver);
      (c1.Err? <==> |Requests(x.trace)| == 0) &&
      (c1.Err? ==> x.result == Err(c1.error)) &&
      (c1.Ok? ==> Requests(x.trace)[0].headers == MergeHeaders(headers, c1.value)) &&
      (c1.Ok? && !Challenged(transport(0)) ==>
        x.result == transport(0) && |Requests(x.trace)| == 1 && Invalidations(x.trace) == 0)
  {
    if FirstCookie(st, solver).Err? {
      NoCookieTrace(st, url, headers, solver, transport);
    } else if !Challenged(transport(0)) {
      UnchallengedTrace(st, url, headers, solver, transport);
    } else {
      ChallengedTrace(st, url, headers, solver, transport);
    }
  }

  /** There is an invalidation exactly when the first answer is a challenge;
      it comes right after that request and right before the fresh cookie read. */
  lemma ChallengeInvalidatesOnce(st: SessionState, url: Url, headers: Option<Headers>,
                                 solver: nat -> SolveOutcome, transport: nat -> Result<Response>)
    ensures var x := GuardedFetch(st, url, headers, solver, transport);
      (Invalidations(x.trace) == 1 <==> |Requests(x.trace)| >= 1 && Challenged(transport(0))) &&
      (Invalidations(x.trace) == 1 ==>
        |x.trace| >= 4 && x.trace[1].Sent? && x.trace[2] == Invalidated && x.trace[3].CookieRead?)
  {
    if FirstCookie(st, solver).Err? {
      NoCookieTrace(st, url, headers, solver, transport);
    } else if !Challenged(transport(0)) {
      UnchallengedTrace(st, url, headers, solver, transport);
    } else {
      ChallengedTrace(st, url, headers, solver, transport);
    }
  }

  /** The retry carries the cookie of the solve that followed the
      invalidation, never the cached one; a challenged retry throws, any other
      answer to it is the result; a failed re-solve sends no retry. */
  lemma RetryUsesFreshCookie(st: SessionState, url: Url, headers: Option<Headers>,
                             solver: nat -> SolveOutcome, transport: nat -> Result<Response>)
    ensures var x := GuardedFetch(st, url, headers, solver, transport);
      (|Requests(x.trace)| == 2 ==>
        solver(1).Solved? && Requests(x.trace)[1].headers == MergeHeaders(headers, CookieHeader(solver(1).cookies)) &&
        x.result == if Challenged(transport(1)) then Err(StillChallenged(Href(url))) else transport(1)) &&
      (Invalidations(x.trace) == 1 && |Requests(x.trace)| == 1 ==>
        solver(1).SolveFailed? && x.result == Err(External(solver(1).message)))
  {
    if FirstCookie(st, solver).Err? {
      NoCookieTrace(st, url, headers, solver, transport);
    } else if !Challenged(transport(0)) {
      UnchallengedTrace(st, url, headers, solver, transport);
    } else {
      ChallengedTrace(st, url, headers, solver, transport);
    }
  }

  /** The protocol of `wafFetch` on the session its URL selected. */
  method GuardedRequest(session: WafSession, url: Url, headers: Option<Headers>,
                        solver: nat -> SolveOutcome, transport: nat -> Result<Response>)
    returns (r: Result<Response>, trace: seq<Step>)
    requires session.Valid()
    modifies session
    ensures session.Valid()
    ensures var x := GuardedFetch(old(session.State()), url, headers, solver, transport);
      r == x.result && trace == x.trace && session.State() == x.session
  {
    var cookieHeader := session.GetCookieHeader(solver(0));
    trace := [CookieRead(cookieHeader)];
    if cookieHeader.Err? {
      return Err(cookieHeader.error), trace;
    }
    var request := Request(url, MergeHeaders(headers, cookieHeader.value));
    trace := trace + [Sent(request)];
    var response := transport(0);
    if response.Err? || !LooksLikeWafChallenge(response.value) {
      return response, trace;
    }
    r, trace := RetryWithFreshCookie(session, url, headers, solver, transport, trace);
  }

  /** The challenged branch of `wafFetch`. */
  method RetryWithFreshCookie(session: WafSession, url: Url, headers: Option<Headers>,
                              solver: nat -> SolveOutcome, transport: nat -> Result<Response>, sent: seq<Step>)
    returns (r: Result<Response>, trace: seq<Step>)
    requires session.Valid()
    modifies session
    ensures session.Valid()
    ensures var x := RetryExchange(old(session.State()), url, headers, solver, transport, sent);
      r == x.result && trace == x.trace && session.State() == x.session
  {
    session.Invalidate();
    var freshCookie := session.GetCookieHeader(solver(1));
    trace := sent + [Invalidated, CookieRead(freshCookie)];
    if freshCookie.Err? {
      return Err(freshCookie.error), trace;
    }
    var retryRequest := Request(url, MergeHeaders(headers, freshCookie.value));
    trace := trace + [Sent(retryRequest)];
    var retryResponse := transport(1);
    if retryResponse.Ok? && LooksLikeWafChallenge(retryResponse.value) {
      return Err(StillChallenged(Href(url))), trace;
    }
    r := retryResponse;
  }

  /** The module-level state of waf-fetch.js: the session registry. */
  class WafClient {
    var sessions: map<string, WafSession>

    ghost predicate Valid()
      reads this, sessions.Values
    {
      forall k :: k in sessions ==> sessions[k].baseUrl == k && sessions[k].Valid()
    }

    constructor ()
      ensures Valid() && sessions == map[]
    {
      sessions := map[];
    }

    /** `getSession`: the session of the URL's origin, created on first use. */
    method GetSession(url: Url) returns (s: WafSession)
      requires Valid()
      modifies this
      ensures Valid()
      ensures OriginKey(url) in sessions && s == sessions[OriginKey(url)] && s.baseUrl == OriginKey(url)
      ensures OriginKey(url) in old(sessions) ==> sessions == old(sessions)
      ensures OriginKey(url) !in old(sessions) ==>
        fresh(s) && s.State() == NewSession() && sessions == old(sessions)[OriginKey(url) := s]
    {
      var origin := OriginKey(url);
      if origin !in sessions {
        s := new WafSession(origin);
        sessions := sessions[origin := s];
      } else {
        s := sessions[origin];
      }
    }

    /** `wafFetch(url, { headers })`. */
    method Fetch(url: Url, headers: Option<Headers>, solver: nat -> SolveOutcome, transport: nat -> Result<Response>)
      returns (r: Result<Response>, trace: seq<Step>)
      requires Valid()
      modifies this, sessions.Values
      ensures Valid()
      ensures OriginKey(url) in sessions && sessions == old(sessions)[OriginKey(url) := sessions[OriginKey(url)]]
      ensures OriginKey(url) in old(sessions) ==> sessions[OriginKey(url)] == old(sessions[OriginKey(url)])
      ensures unchanged(old(sessions.Values) - {sessions[OriginKey(url)]})
      ensures var before := if OriginKey(url) in old(sessions) then old(sessions[OriginKey(url)].State()) else NewSession();
        var x := GuardedFetch(before, url, headers, solver, transport);
        r == x.result && trace == x.trace && sessions[OriginKey(url)].State() == x.session
    {
      var session := GetSession(url);
      r, trace := GuardedRequest(session, url, headers, solver, transport);
    }
  }
}

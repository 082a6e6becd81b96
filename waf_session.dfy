/** The per-origin WAF session of waf-session.js: a cached cookie list, a
    single-flight challenge solve, and invalidation.

    The browser-driven solve is an external outcome (cookies or a failure).
    The asynchronous gap between starting a solve and its settling is made
    explicit: `Solve` starts (or joins) the pending solve and `FinishSolve`
    settles it, so any interleaving of concurrent callers is a sequence of
    these steps. */
module WafSessions {
  import opened Common

  datatype Cookie = Cookie(name: string, value: string)

  /** What the headless-browser solve delivers: every cookie of its context, or the error it threw. */
  datatype SolveOutcome = Solved(cookies: seq<Cookie>) | SolveFailed(message: string)

  function Pair(c: Cookie): string {
    c.name + "=" + c.value
  }

  /** `cookies.map(c => `${c.name}=${c.value}`).join('; ')` */
  function CookieHeader(cs: seq<Cookie>): (h: string)
    ensures h == "" <==> cs == []
    ensures cs != [] ==> Pair(cs[0]) <= h
  {
    if cs == [] then ""
    else if |cs| == 1 then assert Pair(cs[0])[|cs[0].name|] == '='; Pair(cs[0])
    else Pair(cs[0]) + "; " + CookieHeader(cs[1..])
  }

  // ---------------------------------------------------------------------------
  // Reading a header back: the partner of CookieHeader.

  /** A cookie whose name and value are tokens in the sense of section 4.1.1 of
      RFC 6265: the name holds no `=` or `;`, the value no `;`. */
  predicate PlainCookie(c: Cookie) {
    '=' !in c.name && ';' !in c.name && ';' !in c.value
  }

  /** The first index of `ch` in `s`. */
  function IndexOf(s: string, ch: char): (r: Option<nat>)
    ensures r.Some? ==> r.value < |s| && s[r.value] == ch && ch !in s[..r.value]
    ensures r.None? ==> ch !in s
  {
    if s == [] then None
    else if s[0] == ch then Some(0)
    else match IndexOf(s[1..], ch)
      case None => None
      case Some(i) => assert s[..i + 1] == [s[0]] + s[1..][..i]; Some(i + 1)
  }

  lemma IndexOfAfter(a: string, ch: char, b: string)
    requires ch !in a
    ensures IndexOf(a + [ch] + b, ch) == Some(|a|)
  {
    var s := a + [ch] + b;
    assert s[|a|] == ch;
    assert forall j :: 0 <= j < |a| ==> s[j] == a[j] && a[j] in a;
    assert forall k :: |a| < k <= |s| ==> s[..k][|a|] == ch && s[..k][|a|] in s[..k];
  }

  function ParsePair(s: string): Cookie {
    match IndexOf(s, '=')
    case None => Cookie(s, "")
    case Some(i) => Cookie(s[..i], s[i + 1..])
  }

  /** Splits a `Cookie` header at each `; ` and each pair at its first `=`. */
  function ParseCookieHeader(h: string): seq<Cookie>
    decreases |h|
  {
    if h == "" then []
    else match IndexOf(h, ';')
      case None => [ParsePair(h)]
      case Some(i) => [ParsePair(h[..i])] + ParseCookieHeader(if i + 2 <= |h| then h[i + 2..] else "")
  }

  lemma ParsePairOfPair(c: Cookie)
    requires PlainCookie(c)
    ensures ParsePair(Pair(c)) == c
  {
    assert Pair(c) == c.name + ['='] + c.value;
    IndexOfAfter(c.name, '=', c.value);
  }

  /** Reading `pair; rest` gives the pair's cookie, then what `rest` reads as. */
  lemma ParseHeaderStep(c: Cookie, rest: string)
    requires PlainCookie(c)
    ensures ParseCookieHeader(Pair(c) + "; " + rest) == [c] + ParseCookieHeader(rest)
  {
    var p := Pair(c);
    var h := p + "; " + rest;
    assert ';' !in p;
    assert h == p + [';'] + (" " + rest);
    IndexOfAfter(p, ';', " " + rest);
    assert h[..|p|] == p;
    assert h[|p| + 2..] == rest;
    ParsePairOfPair(c);
  }

  /** The header loses nothing: reading it back gives the cookie list, in order. */
  lemma {:induction false} CookieHeaderRoundTrip(cs: seq<Cookie>)
    requires forall c :: c in cs ==> PlainCookie(c)
    ensures ParseCookieHeader(CookieHeader(cs)) == cs
  {
    if cs == [] {
    } else if |cs| == 1 {
      assert cs[0] in cs;
      ParsePairOfPair(cs[0]);
      assert ';' !in Pair(cs[0]);
    } else {
      assert cs[0] in cs;
      assert forall c :: c in cs[1..] ==> c in cs;
      ParseHeaderStep(cs[0], CookieHeader(cs[1..]));
      CookieHeaderRoundTrip(cs[1..]);
    }
  }

  // ---------------------------------------------------------------------------
  // The session's state and its transitions.

  /** The fields of a `WafSession`. The pending solve (`_solving`) is named by
      the number of its underlying `_doSolve` call; `launches` counts those
      calls and `settled` keeps the outcome every settled solve delivered to
      the callers sharing it. */
  datatype SessionState = SessionState(
    cookies: Option<seq<Cookie>>,
    solving: Option<nat>,
    launches: nat,
    settled: map<nat, SolveOutcome>)

  /** Single flight: the pending solve, if any, is the latest one started,
      and every other solve ever started has settled. */
  ghost predicate SingleFlight(st: SessionState) {
    (st.solving.Some? ==> st.solving.value + 1 == st.launches && st.solving.value !in st.settled) &&
    (forall t :: t in st.settled ==> t < st.launches) &&
    (forall t :: 0 <= t < st.launches ==> t in st.settled || st.solving == Some(t))
  }

  /** A new session: no cookies and no solve in flight. */
  function NewSession(): (st: SessionState)
    ensures st.cookies.None? && st.solving.None? && SingleFlight(st)
  {
    SessionState(None, None, 0, map[])
  }

  /** `solve()`: piggy-back on a pending solve, or start one underlying solve. */
  function SolveStep(st: SessionState): (r: (nat, SessionState))
    ensures st.solving.Some? ==> r.0 == st.solving.value && r.1 == st
    ensures st.solving.None? ==> r.0 == st.launches && r.1.launches == st.launches + 1
    ensures r.1.solving == Some(r.0) && r.1.cookies == st.cookies && r.1.settled == st.settled
    ensures SingleFlight(st) ==> SingleFlight(r.1)
  {
    match st.solving
    case Some(t) => (t, st)
    case None => (st.launches, st.(solving := Some(st.launches), launches := st.launches + 1))
  }

  /** The pending solve settles: a success installs exactly the browser's
      cookies, a failure keeps them; in both cases the slot is cleared (the
      `finally` handler of `solve`). */
  function Settle(st: SessionState, o: SolveOutcome): (st': SessionState)
    requires st.solving.Some?
    ensures st'.solving.None? && st'.launches == st.launches
    ensures st'.cookies == (if o.Solved? then Some(o.cookies) else st.cookies)
    ensures st'.settled == st.settled[st.solving.value := o]
    ensures SingleFlight(st) ==> SingleFlight(st')
  {
    SessionState(if o.Solved? then Some(o.cookies) else st.cookies, None, st.launches, st.settled[st.solving.value := o])
  }

  /** `invalidate()`: forget the cookies; a pending solve is neither cancelled nor cleared. */
  function InvalidateStep(st: SessionState): (st': SessionState)
    ensures st'.cookies.None?
    ensures st'.solving == st.solving && st'.launches == st.launches && st'.settled == st.settled
    ensures SingleFlight(st) ==> SingleFlight(st')
  {
    st.(cookies := None)
  }

  /** What a caller of `getCookieHeader` gets once the solve it waited for settled with `o`. */
  function SolvedHeader(o: SolveOutcome): (r: Result<string>)
    ensures r.Ok? <==> o.Solved?
    ensures o.Solved? ==> r.value == CookieHeader(o.cookies)
    ensures o.SolveFailed? ==> r.error == External(o.message)
  {
    match o
    case Solved(cs) => Ok(CookieHeader(cs))
    case SolveFailed(m) => Err(External(m))
  }

  /** `getCookieHeader()`, where `o` is the outcome of the solve it may wait for. */
  function CookieHeaderStep(st: SessionState, o: SolveOutcome): (r: (Result<string>, SessionState))
    ensures st.cookies.Some? ==> r == (Ok(CookieHeader(st.cookies.value)), st)
    ensures st.cookies.None? ==> r.0 == SolvedHeader(o) && r.1.solving.None?
    ensures st.cookies.None? ==> r.1.launches == st.launches + (if st.solving.None? then 1 else 0)
    ensures st.cookies.None? ==> r.1.cookies == (if o.Solved? then Some(o.cookies) else None)
    ensures SingleFlight(st) ==> SingleFlight(r.1)
  {
    if st.cookies.Some? then (Ok(CookieHeader(st.cookies.value)), st)
    else (SolvedHeader(o), Settle(SolveStep(st).1, o))
  }

  // ---------------------------------------------------------------------------
  // Interleavings of concurrent callers.

  /** One scheduling step: a caller enters `solve`, the pending solve settles, or a caller invalidates. */
  datatype SessionEvent = EnterSolve | SolveSettles(outcome: SolveOutcome) | CallInvalidate

  function Step(st: SessionState, e: SessionEvent): (r: SessionState)
    ensures r.launches == st.launches + (if e.EnterSolve? && st.solving.None? then 1 else 0)
    ensures e.SolveSettles? ==> r.solving.None?
    ensures e.CallInvalidate? ==> r.cookies.None? && r.solving == st.solving
  {
    match e
    case EnterSolve => SolveStep(st).1
    case SolveSettles(o) => if st.solving.Some? then Settle(st, o) else st
    case CallInvalidate => InvalidateStep(st)
  }

  /** The state after the events `es`, in order. */
  function Run(st: SessionState, es: seq<SessionEvent>): (r: SessionState)
    ensures (forall i :: 0 <= i < |es| ==> !es[i].EnterSolve?) ==> r.launches == st.launches
    decreases |es|
  {
    if es == [] then st else Run(Step(st, es[0]), es[1..])
  }

  function Settlements(es: seq<SessionEvent>): nat {
    if es == [] then 0 else (if es[0].SolveSettles? then 1 else 0) + Settlements(es[1..])
  }

  /** Every schedule keeps the single-flight invariant. */
  lemma {:induction false} RunKeepsSingleFlight(st: SessionState, es: seq<SessionEvent>)
    requires SingleFlight(st)
    ensures SingleFlight(Run(st, es))
    decreases |es|
  {
    if es != [] {
      RunKeepsSingleFlight(Step(st, es[0]), es[1..]);
    }
  }

  /** Whatever the schedule, a new underlying solve starts only after the
      previous one settled: the launches are bounded by the settlements, plus
      one when no solve was pending at the start. */
  lemma {:induction false} LaunchesBoundedBySettlements(st: SessionState, es: seq<SessionEvent>)
    ensures Run(st, es).launches <= st.launches + Settlements(es) + (if st.solving.None? then 1 else 0)
    ensures Run(st, es).launches >= st.launches
    decreases |es|
  {
    if es != [] {
      LaunchesBoundedBySettlements(Step(st, es[0]), es[1..]);
    }
  }

  /** `n` callers entering `solve` with no settlement in between: they all get the same pending solve. */
  function EnterMany(st: SessionState, n: nat): (r: (seq<nat>, SessionState))
    ensures |r.0| == n
    decreases n
  {
    if n == 0 then ([], st)
    else
      var (t, st1) := SolveStep(st);
      var (ts, st2) := EnterMany(st1, n - 1);
      ([t] + ts, st2)
  }

  lemma {:induction false} ConcurrentCallersShareOneSolve(st: SessionState, n: nat)
    requires n > 0
    ensures var (ts, st') := EnterMany(st, n);
      st'.launches == st.launches + (if st.solving.None? then 1 else 0) &&
      st'.solving.Some? && (st.solving.Some? ==> st' == st) &&
      forall i :: 0 <= i < n ==> ts[i] == st'.solving.value
    decreases n
  {
    var (t, st1) := SolveStep(st);
    if n > 1 {
      ConcurrentCallersShareOneSolve(st1, n - 1);
    }
  }

  // ---------------------------------------------------------------------------
  // The class.

  class WafSession {
    const baseUrl: string
    var cookies: Option<seq<Cookie>>
    var solving: Option<nat>
    var launches: nat
    var settled: map<nat, SolveOutcome>

    function State(): SessionState
      reads this
    {
      SessionState(cookies, solving, launches, settled)
    }

    ghost predicate Valid()
      reads this
    {
      SingleFlight(State())
    }

    constructor (baseUrl: string)
      ensures Valid()
      ensures this.baseUrl == baseUrl && State() == NewSession()
    {
      this.baseUrl := baseUrl;
      cookies := None;
      solving := None;
      launches := 0;
      settled := map[];
    }

    /** Returns the pending solve, starting it only if none is pending. */
    method Solve() returns (ticket: nat)
      requires Valid()
      modifies this
      ensures Valid()
      ensures (ticket, State()) == SolveStep(old(State()))
    {
      if solving.Some? {
        return solving.value;
      }
      ticket := launches;
      solving := Some(ticket);
      launches := launches + 1;
    }

    /** The end of `_doSolve` and the `finally` of `solve`: the pending solve settles with `o`. */
    method FinishSolve(o: SolveOutcome) returns (ticket: nat)
      requires Valid() && solving.Some?
      modifies this
      ensures Valid()
      ensures ticket == old(solving.value) && State() == Settle(old(State()), o)
    {
      ticket := solving.value;
      if o.Solved? {
        cookies := Some(o.cookies);
      }
      settled := settled[ticket := o];
      solving := None;
    }

    method GetCookieHeader(o: SolveOutcome) returns (r: Result<string>)
      requires Valid()
      modifies this
      ensures Valid()
      ensures (r, State()) == CookieHeaderStep(old(State()), o)
    {
      if cookies.None? {
        var _ := Solve();
        var _ := FinishSolve(o);
        if o.SolveFailed? {
          return Err(External(o.message));
        }
      }
      r := Ok(CookieHeader(cookies.value));
    }

    method Invalidate()
      requires Valid()
      modifies this
      ensures Valid()
      ensures State() == InvalidateStep(old(State()))
    {
      cookies := None;
    }
  }
}

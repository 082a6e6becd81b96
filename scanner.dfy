/** The scanning pass of campground-scanner.js: `update` walks the configured
    searches, sends each to `checkSiteAvailability` or `findAvailableSite`,
    and the module-level `resourceLocationCache` and `errors` dictionaries
    persist between searches.

    The network is an oracle (`Env`): the resource-location API answers a URL
    and the number of location fetches made so far, the map API answers a
    query, and the clock gives the two readings (`new Date()`) of the `catch`
    of each search. Notifications are collected in an outbox instead of being
    sent. */
module Scanning {
  import opened Common
  import opened CampgroundApi
  import opened Crawler
  import opened ErrorThrottle

  const BookingPath: string := "create-booking/results"
  const ResourceLocationPath: string := "api/resourceLocation"
  const ChangeBookingPath: string := "account/all-bookings"

  // ---------------------------------------------------------------------------
  // Searches and notifications.

  /** One entry of the searches configuration. */
  datatype Search = Search(
    name: Option<string>,
    baseUrl: string,
    mapId: string,
    siteId: Option<string>,
    startDate: string,
    endDate: string,
    kind: Option<string>)

  /** `search.name || `${mapId} (${startDate} - ${endDate})``: never empty. */
  function Label(s: Search): (r: string)
    ensures |r| > 0
    ensures s.name.Some? && s.name.value != "" ==> r == s.name.value
    ensures s.name.None? || s.name.value == "" ==> r == s.mapId + " (" + s.startDate + " - " + s.endDate + ")"
  {
    if s.name.Some? && s.name.value != "" then s.name.value
    else s.mapId + " (" + s.startDate + " - " + s.endDate + ")"
  }

  /** `(search.type || 'map') === 'site'` */
  predicate IsSite(s: Search) {
    s.kind == Some("site")
  }

  /** The link a notification carries. A booking link keeps its query
      parameters apart: the map, the resource location id (`None` is the
      empty value `''`) and the dates, with the parameter table chosen by
      the profile. */
  datatype Link =
    | NoLink
    | Page(url: string)
    | Booking(url: string, mapId: string, resourceLocationId: Option<int>, profile: Profile, startDate: string, endDate: string)

  /** One call of `notify(title, message, url, priority)`. */
  datatype Notification = Notification(title: string, message: string, link: Link, priority: int)

  /** A notice of a failed search: the only kind sent at priority -1. */
  predicate IsErrorNotice(n: Notification) {
    n.priority == -1
  }

  /** The notice for one available campground found by a map search: a
      booking link to the hit's map, labelled by the search or by the map. */
  function HitNotice(baseUrl: string, searchName: string, rid: Option<int>, startDate: string, endDate: string, h: Hit): (r: Notification)
    ensures !IsErrorNotice(r) && r.link.Booking? && r.link.mapId == h.mapId && r.link.resourceLocationId == rid
    ensures r.message == (if searchName != "" then searchName else "Map " + h.mapId)
  {
    Notification(
      "Campground available!",
      if searchName != "" then searchName else "Map " + h.mapId,
      Booking(baseUrl + BookingPath, h.mapId, rid, ProfileOf(baseUrl), startDate, endDate),
      1)
  }

  /** One notice per hit, in the order of the hits. */
  function HitNotices(baseUrl: string, searchName: string, rid: Option<int>, startDate: string, endDate: string, hits: seq<Hit>): (r: seq<Notification>)
    ensures |r| == |hits|
    ensures forall i :: 0 <= i < |hits| ==>
      r[i].link.Booking? && r[i].link.mapId == hits[i].mapId && r[i].link.resourceLocationId == rid &&
      r[i].link.url == baseUrl + BookingPath && r[i].priority == 1
  {
    seq(|hits|, i requires 0 <= i < |hits| => HitNotice(baseUrl, searchName, rid, startDate, endDate, hits[i]))
  }

  /** The notice of a map search that failed: the error's message, no link. */
  function ErrorNotice(msg: string): (r: Notification)
    ensures IsErrorNotice(r) && r.message == msg && r.link.NoLink?
  {
    Notification("Error searching for campground", msg, NoLink, -1)
  }

  /** The property name `siteId` becomes: `undefined` when the search has none. */
  function SiteKey(siteId: Option<string>): string {
    siteId.GetOr("undefined")
  }

  /** The notice of an open site found by a site search: a link to the
      bookings page, titled with the search or the site. */
  function SiteNotice(baseUrl: string, siteId: Option<string>, searchName: string): (r: Notification)
    ensures !IsErrorNotice(r) && r.link == Page(baseUrl + ChangeBookingPath)
    ensures searchName != "" ==> r.title == "Campsite " + searchName + " available!"
  {
    var shown := if searchName != "" then searchName else "Site " + SiteKey(siteId);
    Notification("Campsite " + shown + " available!", "", Page(baseUrl + ChangeBookingPath), 1)
  }

  // ---------------------------------------------------------------------------
  // The environment and the state a pass changes.

  /** The resource-location API: the answer to a URL, given the number of location fetches before it. */
  type LocationsApi = (string, nat) -> Result<seq<Location>>

  /** The two clock readings of a `catch`: when the record is compared, and when it is written. */
  datatype Moment = Moment(checkedAt: int, recordedAt: int)

  /** The world a pass runs against; `clock(k)` is read by the `catch` of the k-th search. */
  datatype Env = Env(locations: LocationsApi, mapApi: MapApi, rank: MapQuery -> nat, clock: nat -> Moment)

  /** `resourceLocationCache`, the location URLs fetched so far, the `errors`
      records, and the notifications sent so far. */
  datatype ScanState = ScanState(cache: map<string, seq<Location>>, fetches: seq<string>, errors: Records, outbox: seq<Notification>)

  function LocationsUrl(baseUrl: string): string {
    baseUrl + ResourceLocationPath
  }

  /** Different base URLs have different location URLs. */
  lemma LocationsUrlInjective(a: string, b: string)
    ensures LocationsUrl(a) == LocationsUrl(b) ==> a == b
  {
    if LocationsUrl(a) == LocationsUrl(b) {
      assert |a| == |b|;
      assert a == LocationsUrl(a)[..|a|];
      assert b == LocationsUrl(b)[..|b|];
    }
  }

  /** `st'` keeps every cache entry, fetch and notification of `st`. */
  ghost predicate Extends(st: ScanState, st': ScanState) {
    (forall b :: b in st.cache ==> b in st'.cache && st'.cache[b] == st.cache[b]) &&
    st.fetches <= st'.fetches && st.outbox <= st'.outbox
  }

  /** No fetch made between `st` and `st'` is of a base URL cached in `st`. */
  ghost predicate NoRefetch(st: ScanState, st': ScanState)
    requires st.fetches <= st'.fetches
  {
    forall i, b :: |st.fetches| <= i < |st'.fetches| && b in st.cache ==> st'.fetches[i] != LocationsUrl(b)
  }

  lemma ExtendsTrans(st0: ScanState, st1: ScanState, st2: ScanState)
    requires Extends(st0, st1) && Extends(st1, st2)
    requires NoRefetch(st0, st1) && NoRefetch(st1, st2)
    ensures Extends(st0, st2) && NoRefetch(st0, st2)
  {
    assert forall i :: 0 <= i < |st1.fetches| ==> st2.fetches[i] == st1.fetches[i];
  }

  // ---------------------------------------------------------------------------
  // The resource-location cache.

  /** `getResourceLocations(baseUrl)`: the cached list, or one fetch that
      fills the cache when it succeeds. */
  function LocationsStep(st: ScanState, env: Env, baseUrl: string): (r: (Result<seq<Location>>, ScanState))
    ensures baseUrl in st.cache ==> r == (Ok(st.cache[baseUrl]), st)
    ensures baseUrl !in st.cache ==>
      r.0 == env.locations(LocationsUrl(baseUrl), |st.fetches|) && r.1.fetches == st.fetches + [LocationsUrl(baseUrl)]
    ensures r.0.Ok? ==> baseUrl in r.1.cache && r.1.cache[baseUrl] == r.0.value
    ensures r.1.cache.Keys == st.cache.Keys + (if r.0.Ok? then {baseUrl} else {})
    ensures r.1.errors == st.errors && r.1.outbox == st.outbox
    ensures Extends(st, r.1) && NoRefetch(st, r.1)
  {
    if baseUrl in st.cache then (Ok(st.cache[baseUrl]), st)
    else
      var url := LocationsUrl(baseUrl);
      var fetched := st.(fetches := st.fetches + [url]);
      assert forall b :: b in st.cache ==> url != LocationsUrl(b) by {
        forall b | b in st.cache ensures url != LocationsUrl(b) {
          LocationsUrlInjective(baseUrl, b);
        }
      }
      match env.locations(url, |st.fetches|)
      case Err(e) => (Err(e), fetched)
      case Ok(locations) => (Ok(locations), fetched.(cache := st.cache[baseUrl := locations]))
  }

  /** Once a base URL is cached, looking it up again fetches nothing and returns the same list. */
  /** Fetch `i` of the log was of the locations of `b`, and `b` is cached if that fetch succeeded. */
  ghost predicate FetchOf(cache: map<string, seq<Location>>, fetches: seq<string>, env: Env, i: int, b: string) {
    0 <= i < |fetches| && fetches[i] == LocationsUrl(b) &&
    (env.locations(fetches[i], i).Ok? ==> b in cache)
  }

  /** Fetch `i` of the log was a location fetch, accounted for by the cache. */
  ghost predicate Accounted(cache: map<string, seq<Location>>, fetches: seq<string>, env: Env, i: int) {
    exists b :: FetchOf(cache, fetches, env, i, b)
  }

  /** Every logged fetch is a location fetch, and each successful one filled the cache. */
  ghost predicate Logged(cache: map<string, seq<Location>>, fetches: seq<string>, env: Env) {
    forall i :: 0 <= i < |fetches| ==> Accounted(cache, fetches, env, i)
  }

  /** A location URL is fetched again only when every earlier fetch of it failed. */
  ghost predicate FetchedOnce(fetches: seq<string>, env: Env) {
    forall i, j :: 0 <= i < j < |fetches| && fetches[i] == fetches[j] ==> env.locations(fetches[i], i).Err?
  }

  /** The cache lookup keeps the fetch log consistent: it never refetches a URL that was fetched successfully. */
  lemma LocationsStepKeepsLog(st: ScanState, env: Env, baseUrl: string)
    requires Logged(st.cache, st.fetches, env) && FetchedOnce(st.fetches, env)
    ensures var st1 := LocationsStep(st, env, baseUrl).1;
      Logged(st1.cache, st1.fetches, env) && FetchedOnce(st1.fetches, env)
  {
    var st1 := LocationsStep(st, env, baseUrl).1;
    if baseUrl !in st.cache {
      var n := |st.fetches|;
      forall i | 0 <= i < |st1.fetches|
        ensures Accounted(st1.cache, st1.fetches, env, i)
      {
        if i == n {
          assert FetchOf(st1.cache, st1.fetches, env, n, baseUrl);
        } else {
          assert Accounted(st.cache, st.fetches, env, i);
          var b :| FetchOf(st.cache, st.fetches, env, i, b);
          assert FetchOf(st1.cache, st1.fetches, env, i, b);
        }
      }
      forall i, j | 0 <= i < j < |st1.fetches| && st1.fetches[i] == st1.fetches[j]
        ensures env.locations(st1.fetches[i], i).Err?
      {
        assert Accounted(st.cache, st.fetches, env, i);
        var b :| FetchOf(st.cache, st.fetches, env, i, b);
        if j == n {
          LocationsUrlInjective(b, baseUrl);
        } else {
          assert st.fetches[i] == st.fetches[j];
        }
      }
    }
  }

  // ---------------------------------------------------------------------------
  // The map search with its error throttle.

  /** The `catch` of `findAvailableSite` on a failure with message `msg`. */
  function Throttle(st: ScanState, msg: string, at: Moment): (r: ScanState)
    ensures var (notified, errors) := Report(st.errors, msg, at.checkedAt, at.recordedAt);
      r.errors == errors && r.outbox == st.outbox + (if notified then [ErrorNotice(msg)] else [])
    ensures r.cache == st.cache && r.fetches == st.fetches
  {
    var (notified, errors) := Report(st.errors, msg, at.checkedAt, at.recordedAt);
    st.(errors := errors, outbox := if notified then st.outbox + [ErrorNotice(msg)] else st.outbox)
  }

  /** `findAvailableSite(baseUrl, mapId, startDate, endDate, searchName)`, the k-th search of the pass. */
  function FindAvailableSiteStep(st: ScanState, env: Env, k: nat, q: MapQuery, searchName: string): (r: ScanState)
    requires Ranked(env.mapApi, env.rank)
    ensures Extends(st, r) && NoRefetch(st, r)
    ensures var st1 := LocationsStep(st, env, q.baseUrl).1; r.cache == st1.cache && r.fetches == st1.fetches
  {
    var (locations, st1) := LocationsStep(st, env, q.baseUrl);
    if locations.Err? then Throttle(st1, Message(locations.error), env.clock(k))
    else
      var rid := BookingLocationId(FindResourceLocation(locations.value, Some(searchName)));
      var w := Crawl(env.mapApi, env.rank, q);
      if w.hits.Err? then Throttle(st1, Message(w.hits.error), env.clock(k))
      else st1.(outbox := st1.outbox + HitNotices(q.baseUrl, searchName, rid, q.startDate, q.endDate, w.hits.value))
  }

  /** A map search that reads its locations and crawls without error sends
      one booking notice for each own hit of the maps the crawl queried, in
      pre-order, and the crawl queried every map reachable along flag-0 links;
      the error records stay as they were. */
  lemma MapSearchSendsHits(st: ScanState, env: Env, k: nat, q: MapQuery, searchName: string)
    requires Ranked(env.mapApi, env.rank)
    requires LocationsStep(st, env, q.baseUrl).0.Ok? && Crawl(env.mapApi, env.rank, q).hits.Ok?
    ensures var locations := LocationsStep(st, env, q.baseUrl).0.value;
      var w := Crawl(env.mapApi, env.rank, q);
      var r := FindAvailableSiteStep(st, env, k, q, searchName);
      r.errors == st.errors &&
      r.outbox == st.outbox + HitNotices(q.baseUrl, searchName, BookingLocationId(FindResourceLocation(locations, Some(searchName))),
                                         q.startDate, q.endDate, OwnHits(env.mapApi, q, w.queried)) &&
      Closed(env.mapApi, q, w.queried)
  {
    CrawlPreOrder(env.mapApi, env.rank, q);
    CrawlQueriesOpenChildren(env.mapApi, env.rank, q);
  }

  /** A failed map search sends at most the error notice: it never sends a
      booking notice for the hits found before the failure. */
  lemma {:induction false} FailedMapSearchSendsOnlyError(st: ScanState, env: Env, k: nat, q: MapQuery, searchName: string)
    requires Ranked(env.mapApi, env.rank)
    requires LocationsStep(st, env, q.baseUrl).0.Err? || Crawl(env.mapApi, env.rank, q).hits.Err?
    ensures var r := FindAvailableSiteStep(st, env, k, q, searchName);
      r.outbox == st.outbox || exists msg :: r.outbox == st.outbox + [ErrorNotice(msg)]
  {
    var (locations, st1) := LocationsStep(st, env, q.baseUrl);
    var msg := if locations.Err? then Message(locations.error) else Message(Crawl(env.mapApi, env.rank, q).hits.error);
    assert FindAvailableSiteStep(st, env, k, q, searchName) == Throttle(st1, msg, env.clock(k));
  }

  // ---------------------------------------------------------------------------
  // The site search.

  /** `checkSiteAvailability(baseUrl, mapId, siteId, startDate, endDate, searchName)`:
      its errors are not caught. */
  function SiteStep(st: ScanState, env: Env, q: MapQuery, siteId: Option<string>, searchName: string): (r: Result<ScanState>)
    ensures r.Err? <==> env.mapApi(q).Err? || SiteAvailability(env.mapApi(q).value, SiteKey(siteId)).Err?
    ensures r.Err? && env.mapApi(q).Err? ==> r.error == env.mapApi(q).error
    ensures r.Err? && env.mapApi(q).Ok? ==> r.error == SiteAvailability(env.mapApi(q).value, SiteKey(siteId)).error
    ensures r.Ok? ==> r.value.cache == st.cache && r.value.fetches == st.fetches && r.value.errors == st.errors
    ensures r.Ok? ==> r.value.outbox == st.outbox || r.value.outbox == st.outbox + [SiteNotice(q.baseUrl, siteId, searchName)]
    ensures r.Ok? && |r.value.outbox| > |st.outbox| <==> env.mapApi(q).Ok? && SiteAvailability(env.mapApi(q).value, SiteKey(siteId)) == Ok(0)
  {
    match env.mapApi(q)
    case Err(e) => Err(e)
    case Ok(data) =>
      match SiteAvailability(data, SiteKey(siteId))
      case Err(e) => Err(e)
      case Ok(availability) =>
        if availability == 0 then Ok(st.(outbox := st.outbox + [SiteNotice(q.baseUrl, siteId, searchName)]))
        else Ok(st)
  }

  // ---------------------------------------------------------------------------
  // One pass of `update`.

  /** The query a search makes of its root map. */
  function QueryOf(baseUrl: string, s: Search): MapQuery {
    MapQuery(baseUrl, s.mapId, s.startDate, s.endDate)
  }

  /** A search whose failure escapes `update`: an unknown base-URL key, or a site search. */
  predicate MayEscape(s: Search) {
    ResolveBaseUrl(s.baseUrl).Err? || IsSite(s)
  }

  /** One iteration of `update` on the k-th search. */
  function SearchStep(st: ScanState, env: Env, k: nat, s: Search): (r: Result<ScanState>)
    requires Ranked(env.mapApi, env.rank)
    ensures r.Err? ==> MayEscape(s)
    ensures ResolveBaseUrl(s.baseUrl).Err? ==> r == Err(UnknownBaseUrl(s.baseUrl))
    ensures r.Ok? ==> Extends(st, r.value) && NoRefetch(st, r.value)
  {
    match ResolveBaseUrl(s.baseUrl)
    case Err(e) => Err(e)
    case Ok(baseUrl) =>
      var name := Label(s);
      if IsSite(s) then SiteStep(st, env, QueryOf(baseUrl, s), s.siteId, name)
      else Ok(FindAvailableSiteStep(st, env, k, QueryOf(baseUrl, s), name))
  }

  /** The state a pass ended in, and the error that escaped it, if any. */
  datatype PassOutcome = PassOutcome(state: ScanState, failure: Option<Error>)

  /** `update()`: the searches in order, stopping at the first error that escapes. */
  function Pass(st: ScanState, env: Env, searches: seq<Search>): (r: PassOutcome)
    requires Ranked(env.mapApi, env.rank)
    ensures st.fetches <= r.state.fetches && st.outbox <= r.state.outbox
    decreases |searches|
  {
    if searches == [] then PassOutcome(st, None)
    else
      var n := |searches| - 1;
      var p := Pass(st, env, searches[..n]);
      if p.failure.Some? then p
      else
        match SearchStep(p.state, env, n, searches[n])
        case Err(e) => PassOutcome(p.state, Some(e))
        case Ok(st') => PassOutcome(st', None)
  }

  /** One more search of a pass that has not failed yet. */
  lemma PassNext(st: ScanState, env: Env, searches: seq<Search>, i: nat)
    requires Ranked(env.mapApi, env.rank) && i < |searches|
    requires Pass(st, env, searches[..i]).failure.None?
    ensures var p := Pass(st, env, searches[..i]);
      var r := SearchStep(p.state, env, i, searches[i]);
      var next := Pass(st, env, searches[..i + 1]);
      next.state == (if r.Err? then p.state else r.value) &&
      next.failure == (if r.Err? then Some(r.error) else None)
  {
    var ss := searches[..i + 1];
    assert ss[..|ss| - 1] == searches[..i] && ss[|ss| - 1] == searches[i];
  }

  /** Once an error has escaped, the rest of the searches have no effect. */
  lemma {:induction false} PassAbortIsFinal(st: ScanState, env: Env, searches: seq<Search>, more: seq<Search>)
    requires Ranked(env.mapApi, env.rank)
    requires Pass(st, env, searches).failure.Some?
    ensures Pass(st, env, searches + more) == Pass(st, env, searches)
    decreases |more|
  {
    if more == [] {
      assert searches + more == searches;
    } else {
      var all := searches + more;
      assert all[..|all| - 1] == searches + more[..|more| - 1];
      PassAbortIsFinal(st, env, searches, more[..|more| - 1]);
    }
  }

  /** The same, for a pass that failed within its first `n` searches. */
  lemma PassAbortAtPrefix(st: ScanState, env: Env, searches: seq<Search>, n: nat)
    requires Ranked(env.mapApi, env.rank) && n <= |searches|
    requires Pass(st, env, searches[..n]).failure.Some?
    ensures Pass(st, env, searches) == Pass(st, env, searches[..n])
  {
    PassAbortIsFinal(st, env, searches[..n], searches[n..]);
    assert searches[..n] + searches[n..] == searches;
  }

  /** The pass ran the searches before `k` without failure, the error of
      search `k` escaped, and nothing after it ran. */
  ghost predicate StoppedAt(st: ScanState, env: Env, searches: seq<Search>, k: int)
    requires Ranked(env.mapApi, env.rank)
  {
    0 <= k < |searches| && MayEscape(searches[k]) &&
    Pass(st, env, searches[..k]).failure.None? && Pass(st, env, searches[..k + 1]).failure.Some? &&
    Pass(st, env, searches) == Pass(st, env, searches[..k + 1])
  }

  /** Only a site search or an unknown base-URL key ends a pass early, and
      the pass ends at the first such search that fails: the errors of map
      searches are caught. */
  lemma {:induction false} PassFailureSource(st: ScanState, env: Env, searches: seq<Search>)
    requires Ranked(env.mapApi, env.rank)
    ensures Pass(st, env, searches).failure.Some? ==> exists k :: StoppedAt(st, env, searches, k)
    decreases |searches|
  {
    if searches != [] {
      var n := |searches| - 1;
      var prefix := searches[..n];
      PassFailureSource(st, env, prefix);
      if Pass(st, env, prefix).failure.Some? {
        var k :| StoppedAt(st, env, prefix, k);
        assert prefix[..k] == searches[..k] && prefix[..k + 1] == searches[..k + 1] && prefix[k] == searches[k];
        PassAbortAtPrefix(st, env, searches, n);
        assert StoppedAt(st, env, searches, k);
      } else {
        PassNext(st, env, searches, n);
        assert searches[..n + 1] == searches;
        if Pass(st, env, searches).failure.Some? {
          assert SearchStep(Pass(st, env, prefix).state, env, n, searches[n]).Err?;
          assert StoppedAt(st, env, searches, n);
        }
      }
    }
  }

  /** Conversely, a pass with no site search and no unknown base-URL key runs to the end. */
  lemma {:induction false} PassWithoutEscapesCompletes(st: ScanState, env: Env, searches: seq<Search>)
    requires Ranked(env.mapApi, env.rank)
    requires forall k :: 0 <= k < |searches| ==> !MayEscape(searches[k])
    ensures Pass(st, env, searches).failure.None?
    decreases |searches|
  {
    if searches != [] {
      var n := |searches| - 1;
      assert forall k :: 0 <= k < n ==> searches[..n][k] == searches[k];
      PassWithoutEscapesCompletes(st, env, searches[..n]);
      PassNext(st, env, searches, n);
      assert searches[..n + 1] == searches;
      assert SearchStep(Pass(st, env, searches[..n]).state, env, n, searches[n]).Ok?;
    }
  }

  /** Site searches touch neither the location cache, nor the fetch log, nor the error records. */
  lemma {:induction false} SiteSearchesKeepRecords(st: ScanState, env: Env, searches: seq<Search>)
    requires Ranked(env.mapApi, env.rank)
    requires forall k :: 0 <= k < |searches| ==> IsSite(searches[k])
    ensures var st' := Pass(st, env, searches).state;
      st'.cache == st.cache && st'.fetches == st.fetches && st'.errors == st.errors
    decreases |searches|
  {
    if searches != [] {
      var n := |searches| - 1;
      assert forall k :: 0 <= k < n ==> searches[..n][k] == searches[k];
      SiteSearchesKeepRecords(st, env, searches[..n]);
      var p := Pass(st, env, searches[..n]);
      if p.failure.Some? {
        PassAbortAtPrefix(st, env, searches, n);
      } else {
        PassNext(st, env, searches, n);
        assert searches[..n + 1] == searches;
      }
    }
  }

  /** A pass keeps every cache entry, fetch and notification it started
      with, and never fetches the locations of a base URL already cached. */
  lemma {:induction false} PassExtends(st: ScanState, env: Env, searches: seq<Search>)
    requires Ranked(env.mapApi, env.rank)
    ensures Extends(st, Pass(st, env, searches).state) && NoRefetch(st, Pass(st, env, searches).state)
    decreases |searches|
  {
    if searches != [] {
      var n := |searches| - 1;
      PassExtends(st, env, searches[..n]);
      var p := Pass(st, env, searches[..n]);
      if p.failure.None? {
        var r := SearchStep(p.state, env, n, searches[n]);
        if r.Ok? {
          ExtendsTrans(st, p.state, r.value);
        }
      }
    }
  }

  /** Over a pass, from any state whose fetch log is consistent (the empty
      state at load time is), a location URL that was fetched successfully is
      never fetched again. */
  lemma {:induction false} PassFetchesOnce(st: ScanState, env: Env, searches: seq<Search>)
    requires Ranked(env.mapApi, env.rank)
    requires Logged(st.cache, st.fetches, env) && FetchedOnce(st.fetches, env)
    ensures var st' := Pass(st, env, searches).state; Logged(st'.cache, st'.fetches, env) && FetchedOnce(st'.fetches, env)
    decreases |searches|
  {
    if searches != [] {
      var n := |searches| - 1;
      PassFetchesOnce(st, env, searches[..n]);
      var p := Pass(st, env, searches[..n]);
      var s := searches[n];
      if p.failure.None? && ResolveBaseUrl(s.baseUrl).Ok? && !IsSite(s) {
        LocationsStepKeepsLog(p.state, env, ResolveBaseUrl(s.baseUrl).value);
      }
    }
  }

  // ---------------------------------------------------------------------------
  // The error throttle over a pass.

  /** The message of the error a map search catches, if it catches one: a
      failed location fetch, or else a failed crawl. */
  function MapSearchError(st: ScanState, env: Env, q: MapQuery): (r: Option<string>)
    requires Ranked(env.mapApi, env.rank)
    ensures LocationsStep(st, env, q.baseUrl).0.Err? ==> r == Some(Message(LocationsStep(st, env, q.baseUrl).0.error))
    ensures LocationsStep(st, env, q.baseUrl).0.Ok? ==>
      r == if Crawl(env.mapApi, env.rank, q).hits.Err? then Some(Message(Crawl(env.mapApi, env.rank, q).hits.error)) else None
  {
    var locations := LocationsStep(st, env, q.baseUrl).0;
    if locations.Err? then Some(Message(locations.error))
    else
      var w := Crawl(env.mapApi, env.rank, q);
      if w.hits.Err? then Some(Message(w.hits.error)) else None
  }

  /** The failure the k-th search hands to the throttle, with the two clock readings of its `catch`. */
  function CaughtFailure(st: ScanState, env: Env, k: nat, s: Search): (r: Option<Failure>)
    requires Ranked(env.mapApi, env.rank)
    ensures r.Some? ==> !MayEscape(s) && r.value.checkedAt == env.clock(k).checkedAt && r.value.recordedAt == env.clock(k).recordedAt
  {
    match ResolveBaseUrl(s.baseUrl)
    case Err(_) => None
    case Ok(baseUrl) =>
      if IsSite(s) then None
      else
        match MapSearchError(st, env, QueryOf(baseUrl, s))
        case None => None
        case Some(m) => Some(Failure(m, env.clock(k).checkedAt, env.clock(k).recordedAt))
  }

  /** Inside every `catch`, the second clock reading is no earlier than the first. */
  ghost predicate ClockForward(env: Env) {
    forall k: nat :: env.clock(k).checkedAt <= env.clock(k).recordedAt
  }

  /** The failures a pass hands to the throttle, in order. */
  function PassFailures(st: ScanState, env: Env, searches: seq<Search>): (fs: seq<Failure>)
    requires Ranked(env.mapApi, env.rank)
    ensures |fs| <= |searches|
    ensures ClockForward(env) ==> Clocked(fs)
    decreases |searches|
  {
    if searches == [] then []
    else
      var n := |searches| - 1;
      var p := Pass(st, env, searches[..n]);
      var fs := PassFailures(st, env, searches[..n]);
      if p.failure.Some? then fs
      else
        match CaughtFailure(p.state, env, n, searches[n])
        case None => fs
        case Some(f) => fs + [f]
  }

  /** The error notices among `ns`, in order. */
  function ErrorNotices(ns: seq<Notification>): (r: seq<Notification>)
    ensures |r| <= |ns|
    decreases |ns|
  {
    if ns == [] then []
    else ErrorNotices(ns[..|ns| - 1]) + (if IsErrorNotice(ns[|ns| - 1]) then [ns[|ns| - 1]] else [])
  }

  lemma {:induction false} ErrorNoticesAppend(a: seq<Notification>, b: seq<Notification>)
    ensures ErrorNotices(a + b) == ErrorNotices(a) + ErrorNotices(b)
    decreases |b|
  {
    if b == [] {
      assert a + b == a;
    } else {
      var n := |b| - 1;
      assert (a + b)[..|a + b| - 1] == a + b[..n] && (a + b)[|a + b| - 1] == b[n];
      ErrorNoticesAppend(a, b[..n]);
    }
  }

  lemma {:induction false} NoErrorNotices(ns: seq<Notification>)
    requires forall i :: 0 <= i < |ns| ==> !IsErrorNotice(ns[i])
    ensures ErrorNotices(ns) == []
    decreases |ns|
  {
    if ns != [] {
      var n := |ns| - 1;
      assert forall i :: 0 <= i < n ==> ns[..n][i] == ns[i];
      NoErrorNotices(ns[..n]);
    }
  }

  /** The error notices of the failures the throttle let through. */
  function Notified(fs: seq<Failure>, flags: seq<bool>): (r: seq<Notification>)
    requires |flags| == |fs|
    ensures |r| <= |fs|
    decreases |fs|
  {
    if fs == [] then []
    else
      var n := |fs| - 1;
      Notified(fs[..n], flags[..n]) + (if flags[n] then [ErrorNotice(fs[n].message)] else [])
  }

  /** One more failure for the throttle. */
  lemma ReplayNext(errors: Records, fs: seq<Failure>, f: Failure)
    ensures var (flags, e) := Replay(errors, fs);
      var (notified, e') := Report(e, f.message, f.checkedAt, f.recordedAt);
      Replay(errors, fs + [f]).0 == flags + [notified] && Replay(errors, fs + [f]).1 == e' &&
      Notified(fs + [f], flags + [notified]) == Notified(fs, flags) + (if notified then [ErrorNotice(f.message)] else [])
  {
    var all := fs + [f];
    assert all[..|fs|] == fs && all[|fs|] == f;
    var flags := Replay(errors, fs).0;
    var notified := Report(Replay(errors, fs).1, f.message, f.checkedAt, f.recordedAt).0;
    assert (flags + [notified])[..|fs|] == flags;
  }

  /** `st'` follows `st` as the throttle says for the caught failure `cf`:
      records as `Report` says, and an error notice exactly when it notifies. */
  ghost predicate ThrottledAs(st: ScanState, st': ScanState, cf: Option<Failure>) {
    (cf.None? ==> st'.errors == st.errors && ErrorNotices(st'.outbox) == ErrorNotices(st.outbox)) &&
    (cf.Some? ==>
      var (notified, e) := Report(st.errors, cf.value.message, cf.value.checkedAt, cf.value.recordedAt);
      st'.errors == e && ErrorNotices(st'.outbox) == ErrorNotices(st.outbox) + (if notified then [ErrorNotice(cf.value.message)] else []))
  }

  lemma ThrottleThrottles(st: ScanState, msg: string, at: Moment)
    ensures ThrottledAs(st, Throttle(st, msg, at), Some(Failure(msg, at.checkedAt, at.recordedAt)))
  {
    ErrorNoticesAppend(st.outbox, [ErrorNotice(msg)]);
    assert [ErrorNotice(msg)][..0] == [];
  }

  lemma HitNoticesQuiet(outbox: seq<Notification>, baseUrl: string, searchName: string, rid: Option<int>, startDate: string, endDate: string, hits: seq<Hit>)
    ensures ErrorNotices(outbox + HitNotices(baseUrl, searchName, rid, startDate, endDate, hits)) == ErrorNotices(outbox)
  {
    var hs := HitNotices(baseUrl, searchName, rid, startDate, endDate, hits);
    assert forall i :: 0 <= i < |hs| ==> hs[i] == HitNotice(baseUrl, searchName, rid, startDate, endDate, hits[i]);
    NoErrorNotices(hs);
    ErrorNoticesAppend(outbox, hs);
    assert ErrorNotices(outbox) + [] == ErrorNotices(outbox);
  }

  /** A map search, as the throttle sees it. */
  lemma MapStepThrottles(st: ScanState, env: Env, k: nat, q: MapQuery, searchName: string)
    requires Ranked(env.mapApi, env.rank)
    ensures var m := MapSearchError(st, env, q);
      ThrottledAs(st, FindAvailableSiteStep(st, env, k, q, searchName),
        if m.None? then None else Some(Failure(m.value, env.clock(k).checkedAt, env.clock(k).recordedAt)))
  {
    var (locations, st1) := LocationsStep(st, env, q.baseUrl);
    var at := env.clock(k);
    if locations.Err? {
      ThrottleThrottles(st1, Message(locations.error), at);
    } else {
      var w := Crawl(env.mapApi, env.rank, q);
      if w.hits.Err? {
        ThrottleThrottles(st1, Message(w.hits.error), at);
      } else {
        var rid := BookingLocationId(FindResourceLocation(locations.value, Some(searchName)));
        HitNoticesQuiet(st1.outbox, q.baseUrl, searchName, rid, q.startDate, q.endDate, w.hits.value);
      }
    }
  }

  /** One search, as the throttle sees it: the records change as `Report`
      says for the failure it caught, and the error notices it sends are
      those the throttle let through. */
  lemma SearchStepThrottles(st: ScanState, env: Env, k: nat, s: Search)
    requires Ranked(env.mapApi, env.rank)
    ensures var r := SearchStep(st, env, k, s);
      r.Ok? ==> ThrottledAs(st, r.value, CaughtFailure(st, env, k, s))
  {
    var r := SearchStep(st, env, k, s);
    if r.Ok? {
      var q := QueryOf(ResolveBaseUrl(s.baseUrl).value, s);
      if IsSite(s) {
        if r.value.outbox != st.outbox {
          var n := SiteNotice(q.baseUrl, s.siteId, Label(s));
          ErrorNoticesAppend(st.outbox, [n]);
          NoErrorNotices([n]);
          assert ErrorNotices(st.outbox) + [] == ErrorNotices(st.outbox);
        }
      } else {
        MapStepThrottles(st, env, k, q, Label(s));
      }
    }
  }

  /** One more search of the failures a pass hands to the throttle. */
  lemma PassFailuresNext(st: ScanState, env: Env, searches: seq<Search>)
    requires Ranked(env.mapApi, env.rank) && searches != []
    ensures var n := |searches| - 1;
      var p := Pass(st, env, searches[..n]);
      var fs := PassFailures(st, env, searches[..n]);
      var cf := CaughtFailure(p.state, env, n, searches[n]);
      PassFailures(st, env, searches) == if p.failure.Some? || cf.None? then fs else fs + [cf.value]
  {
  }

  /** The records after `searches` are the throttle's records after the
      failures the pass caught, and the error notices sent are those of the
      failures the throttle let through. */
  ghost predicate DrivesThrottle(st: ScanState, env: Env, searches: seq<Search>)
    requires Ranked(env.mapApi, env.rank)
  {
    var p := Pass(st, env, searches);
    var fs := PassFailures(st, env, searches);
    var (flags, e) := Replay(st.errors, fs);
    p.state.errors == e && ErrorNotices(p.state.outbox) == ErrorNotices(st.outbox) + Notified(fs, flags)
  }

  /** The throttle invariant survives one more throttled step. */
  lemma ThrottleExtend(st0: ScanState, s: ScanState, fs: seq<Failure>, s': ScanState, cf: Option<Failure>)
    requires s.errors == Replay(st0.errors, fs).1
    requires ErrorNotices(s.outbox) == ErrorNotices(st0.outbox) + Notified(fs, Replay(st0.errors, fs).0)
    requires ThrottledAs(s, s', cf)
    ensures var fs' := if cf.None? then fs else fs + [cf.value];
      s'.errors == Replay(st0.errors, fs').1 &&
      ErrorNotices(s'.outbox) == ErrorNotices(st0.outbox) + Notified(fs', Replay(st0.errors, fs').0)
  {
    if cf.Some? {
      ReplayNext(st0.errors, fs, cf.value);
    }
  }

  /** The last search of a pass whose earlier searches did not fail. */
  lemma DrivesThrottleStep(st: ScanState, env: Env, searches: seq<Search>)
    requires Ranked(env.mapApi, env.rank) && searches != []
    requires var n := |searches| - 1; DrivesThrottle(st, env, searches[..n]) && Pass(st, env, searches[..n]).failure.None?
    ensures DrivesThrottle(st, env, searches)
  {
    var n := |searches| - 1;
    var p := Pass(st, env, searches[..n]);
    var fs := PassFailures(st, env, searches[..n]);
    var cf := CaughtFailure(p.state, env, n, searches[n]);
    PassFailuresNext(st, env, searches);
    PassNext(st, env, searches, n);
    assert searches[..n + 1] == searches;
    var r := SearchStep(p.state, env, n, searches[n]);
    var s' := Pass(st, env, searches).state;
    if r.Err? {
      assert cf.None? && s' == p.state;
    } else {
      SearchStepThrottles(p.state, env, n, searches[n]);
      assert s' == r.value;
    }
    assert ThrottledAs(p.state, s', cf);
    ThrottleExtend(st, p.state, fs, s', cf);
  }

  /** A pass drives the error throttle: its records are the throttle's
      records after the failures the pass caught, in order, and the error
      notices it sends are exactly those of the failures the throttle let
      through. */
  lemma {:induction false} PassThrottles(st: ScanState, env: Env, searches: seq<Search>)
    requires Ranked(env.mapApi, env.rank)
    ensures DrivesThrottle(st, env, searches)
    decreases |searches|
  {
    if searches == [] {
      assert ErrorNotices(st.outbox) + [] == ErrorNotices(st.outbox);
    } else {
      var n := |searches| - 1;
      PassThrottles(st, env, searches[..n]);
      if Pass(st, env, searches[..n]).failure.Some? {
        PassAbortAtPrefix(st, env, searches, n);
        PassFailuresNext(st, env, searches);
      } else {
        DrivesThrottleStep(st, env, searches);
      }
    }
  }

  /** Dropping the last element of `a + b`, for a non-empty `b`, drops it from `b`. */
  lemma AppendFront<T>(a: seq<T>, b: seq<T>)
    requires b != []
    ensures (a + b)[..|a + b| - 1] == a + b[..|b| - 1] && (a + b)[|a + b| - 1] == b[|b| - 1]
  {
  }

  lemma {:induction false} NotifiedAppend(fs1: seq<Failure>, flags1: seq<bool>, fs2: seq<Failure>, flags2: seq<bool>)
    requires |flags1| == |fs1| && |flags2| == |fs2|
    ensures Notified(fs1 + fs2, flags1 + flags2) == Notified(fs1, flags1) + Notified(fs2, flags2)
    decreases |fs2|
  {
    if fs2 == [] {
      assert fs1 + fs2 == fs1 && flags1 + flags2 == flags1;
    } else {
      var n := |fs2| - 1;
      AppendFront(fs1, fs2);
      AppendFront(flags1, flags2);
      NotifiedAppend(fs1, flags1, fs2[..n], flags2[..n]);
    }
  }

  /** Two throttled runs, the second starting from the records the first
      left, are one throttled run of both failure sequences. */
  lemma ThrottleCompose(e0: Records, e1: Records, e2: Records, n0: seq<Notification>, n1: seq<Notification>,
                        n2: seq<Notification>, fs1: seq<Failure>, fs2: seq<Failure>)
    requires e1 == Replay(e0, fs1).1 && n1 == n0 + Notified(fs1, Replay(e0, fs1).0)
    requires e2 == Replay(e1, fs2).1 && n2 == n1 + Notified(fs2, Replay(e1, fs2).0)
    ensures e2 == Replay(e0, fs1 + fs2).1
    ensures n2 == n0 + Notified(fs1 + fs2, Replay(e0, fs1 + fs2).0)
  {
    var first, second := Replay(e0, fs1).0, Replay(e1, fs2).0;
    ReplayAppend(e0, fs1, fs2);
    calc {
      n2;
      n0 + Notified(fs1, first) + Notified(fs2, second);
      { NotifiedAppend(fs1, first, fs2, second); }
      n0 + Notified(fs1 + fs2, first + second);
    }
  }

  /** Two consecutive passes drive the throttle as one run of failures,
      so the 30-minute spacing holds across passes as well as within one. */
  lemma TwoPassesThrottle(st: ScanState, env1: Env, ss1: seq<Search>, env2: Env, ss2: seq<Search>)
    requires Ranked(env1.mapApi, env1.rank) && Ranked(env2.mapApi, env2.rank)
    ensures var st1 := Pass(st, env1, ss1).state;
      var st2 := Pass(st1, env2, ss2).state;
      var fs := PassFailures(st, env1, ss1) + PassFailures(st1, env2, ss2);
      var (flags, e) := Replay(st.errors, fs);
      st2.errors == e && ErrorNotices(st2.outbox) == ErrorNotices(st.outbox) + Notified(fs, flags) &&
      (ClockForward(env1) && ClockForward(env2) ==> Spaced(fs, flags))
  {
    var st1 := Pass(st, env1, ss1).state;
    var st2 := Pass(st1, env2, ss2).state;
    var fs1, fs2 := PassFailures(st, env1, ss1), PassFailures(st1, env2, ss2);
    PassThrottles(st, env1, ss1);
    PassThrottles(st1, env2, ss2);
    assert DrivesThrottle(st, env1, ss1) && DrivesThrottle(st1, env2, ss2);
    ThrottleCompose(st.errors, st1.errors, st2.errors, ErrorNotices(st.outbox), ErrorNotices(st1.outbox),
                    ErrorNotices(st2.outbox), fs1, fs2);
    if ClockForward(env1) && ClockForward(env2) {
      ClockedAppend(fs1, fs2);
      ReplaySpaced(st.errors, fs1 + fs2);
    }
  }

  /** Within a pass, the throttle holds on what the scanner sends: the error
      notices are those of the caught failures the throttle let through, and
      two of those with the same message were checked at least 30 minutes
      apart. */
  lemma PassErrorNoticesSpaced(st: ScanState, env: Env, searches: seq<Search>)
    requires Ranked(env.mapApi, env.rank) && ClockForward(env)
    ensures var fs := PassFailures(st, env, searches);
      var flags := Replay(st.errors, fs).0;
      ErrorNotices(Pass(st, env, searches).state.outbox) == ErrorNotices(st.outbox) + Notified(fs, flags) &&
      Spaced(fs, flags)
  {
    var fs := PassFailures(st, env, searches);
    PassThrottles(st, env, searches);
    assert DrivesThrottle(st, env, searches);
    ReplaySpaced(st.errors, fs);
  }

  /** From the empty records of load time, a failure of a pass is kept
      quiet only by a notification of the same message, earlier in the
      pass, recorded less than 30 minutes before it. */
  lemma PassSuppressesOnlyWhenRecent(st: ScanState, env: Env, searches: seq<Search>)
    requires Ranked(env.mapApi, env.rank) && st.errors == map[]
    ensures var fs := PassFailures(st, env, searches);
      var flags := Replay(st.errors, fs).0;
      Pass(st, env, searches).state.errors == Replay(st.errors, fs).1 &&
      forall j :: 0 <= j < |fs| && !flags[j] ==> exists i :: SuppressedBy(fs, flags, i, j)
  {
    PassThrottles(st, env, searches);
    assert DrivesThrottle(st, env, searches);
    SuppressedOnlyWhenRecent(PassFailures(st, env, searches));
  }

  // ---------------------------------------------------------------------------
  // The module-level state of campground-scanner.js.

  class Scanner {
    var cache: map<string, seq<Location>>
    var fetches: seq<string>
    var errors: Records
    var outbox: seq<Notification>

    function State(): ScanState
      reads this
    {
      ScanState(cache, fetches, errors, outbox)
    }

    /** `resourceLocationCache = {}` and `errors = {}` at load time. */
    constructor()
      ensures State() == ScanState(map[], [], map[], [])
    {
      cache := map[];
      fetches := [];
      errors := map[];
      outbox := [];
    }

    method GetResourceLocations(env: Env, baseUrl: string) returns (r: Result<seq<Location>>)
      modifies this
      ensures (r, State()) == LocationsStep(old(State()), env, baseUrl)
    {
      if baseUrl !in cache {
        var url := LocationsUrl(baseUrl);
        var response := env.locations(url, |fetches|);
        fetches := fetches + [url];
        if response.Err? {
          return response;
        }
        cache := cache[baseUrl := response.value];
      }
      r := Ok(cache[baseUrl]);
    }

    /** The `catch` block: notify and record unless the message was recorded within the cooldown. */
    method Catch(msg: string, at: Moment)
      modifies this
      ensures State() == Throttle(old(State()), msg, at)
    {
      if msg in errors && errors[msg] > at.checkedAt - Cooldown {
        // suppressed
      } else {
        outbox := outbox + [ErrorNotice(msg)];
        errors := errors[msg := at.recordedAt];
      }
    }

    method FindAvailableSite(env: Env, k: nat, q: MapQuery, searchName: string)
      requires Ranked(env.mapApi, env.rank)
      modifies this
      ensures State() == FindAvailableSiteStep(old(State()), env, k, q, searchName)
    {
      var locations := GetResourceLocations(env, q.baseUrl);
      if locations.Err? {
        Catch(Message(locations.error), env.clock(k));
        return;
      }
      var rid := BookingLocationId(FindResourceLocation(locations.value, Some(searchName)));
      var campgrounds, _ := CheckMapRecursive(env.mapApi, env.rank, q);
      if campgrounds.Err? {
        Catch(Message(campgrounds.error), env.clock(k));
        return;
      }
      SendHitNotices(q.baseUrl, searchName, rid, q.startDate, q.endDate, campgrounds.value);
    }

    /** The `for (const m of campgrounds)` loop: one `notify` per hit, in order. */
    method SendHitNotices(baseUrl: string, searchName: string, rid: Option<int>, startDate: string, endDate: string, hits: seq<Hit>)
      modifies this
      ensures State() == old(State()).(outbox := old(outbox) + HitNotices(baseUrl, searchName, rid, startDate, endDate, hits))
    {
      for i := 0 to |hits|
        invariant State() == old(State()).(outbox := old(outbox) + HitNotices(baseUrl, searchName, rid, startDate, endDate, hits[..i]))
      {
        assert HitNotices(baseUrl, searchName, rid, startDate, endDate, hits[..i + 1]) ==
          HitNotices(baseUrl, searchName, rid, startDate, endDate, hits[..i]) + [HitNotice(baseUrl, searchName, rid, startDate, endDate, hits[i])];
        outbox := outbox + [HitNotice(baseUrl, searchName, rid, startDate, endDate, hits[i])];
      }
      assert hits[..|hits|] == hits;
    }

    method CheckSiteAvailability(env: Env, q: MapQuery, siteId: Option<string>, searchName: string) returns (failure: Option<Error>)
      modifies this
      ensures var r := SiteStep(old(State()), env, q, siteId, searchName);
        failure == (if r.Err? then Some(r.error) else None) && State() == (if r.Ok? then r.value else old(State()))
    {
      var response := env.mapApi(q);
      if response.Err? {
        return Some(response.error);
      }
      var availability := SiteAvailability(response.value, SiteKey(siteId));
      if availability.Err? {
        return Some(availability.error);
      }
      if availability.value == 0 {
        outbox := outbox + [SiteNotice(q.baseUrl, siteId, searchName)];
      }
      failure := None;
    }

    /** One iteration of the loop of `update`, on the k-th search. */
    method RunSearch(env: Env, k: nat, s: Search) returns (failure: Option<Error>)
      requires Ranked(env.mapApi, env.rank)
      modifies this
      ensures var r := SearchStep(old(State()), env, k, s);
        failure == (if r.Err? then Some(r.error) else None) && State() == (if r.Ok? then r.value else old(State()))
    {
      var baseUrl := ResolveBaseUrl(s.baseUrl);
      if baseUrl.Err? {
        return Some(baseUrl.error);
      }
      var name := Label(s);
      if IsSite(s) {
        failure := CheckSiteAvailability(env, QueryOf(baseUrl.value, s), s.siteId, name);
      } else {
        FindAvailableSite(env, k, QueryOf(baseUrl.value, s), name);
        failure := None;
      }
    }

    method Update(env: Env, searches: seq<Search>) returns (failure: Option<Error>)
      requires Ranked(env.mapApi, env.rank)
      modifies this
      ensures PassOutcome(State(), failure) == Pass(old(State()), env, searches)
    {
      for i := 0 to |searches|
        invariant Pass(old(State()), env, searches[..i]).failure.None?
        invariant State() == Pass(old(State()), env, searches[..i]).state
      {
        PassNext(old(State()), env, searches, i);
        failure := RunSearch(env, i, searches[i]);
        if failure.Some? {
          PassAbortAtPrefix(old(State()), env, searches, i + 1);
          return;
        }
      }
      assert searches[..|searches|] == searches;
      failure := None;
    }
  }
}

# campground-scanner, modelled in Dafny

campground-scanner polls two campground reservation sites: Parks Canada and BC Parks. It reports available campgrounds and sites through push notifications. Both sites answer API calls through a web application firewall (WAF). This project models three parts of the program and proves their properties.

1. **The per-origin WAF session** (`waf_session.dfy`, module `WafSessions`). It keeps a cached cookie list and runs at most one solve of the challenge at a time. Concurrent callers share the pending solve, so the solve is single-flight. The session can serialise its cookies as a `Cookie` header and can forget them.
2. **The guarded fetch** (`waf_fetch.dfy`, module `WafFetch`).
   - a registry holding one session per origin;
   - the challenge classifier;
   - header merging;
   - the protocol that retries once after a challenge: invalidate, read a fresh cookie, retry, and throw if the retry is still challenged.
3. **The scanner** (`campground_api.dfy`, `crawler.dfy`, `error_throttle.dfy`, `scanner.dfy`).
   - the base-URL lookup;
   - the case-insensitive resource-location search;
   - the filter that reads one map-availability response;
   - the recursive pre-order walk over child maps (the crawl);
   - the resource-location cache;
   - the single-site check;
   - the 30-minute error throttle;
   - the `update` pass that dispatches each search.

`common.dfy` holds the shared types:
- optional values;
- results that carry the error a call would throw;
- the `message` of each error;
- ASCII lower-casing and substring search.

## How the model is built

Each stateful object of the source is a `class` holding the source's fields:
- `WafSession`: `cookies` and the pending solve;
- `WafClient`: the `sessions` registry;
- `Scanner`: `resourceLocationCache`, `errors` and the notifications sent.

Three fields have no counterpart in the source. `WafSession.launches` counts the underlying solves started, and `WafSession.settled` keeps the outcome of each settled solve. `Scanner.fetches` logs the location URLs fetched. They record the history that the oracles below are indexed by and that the proofs talk about.

Each class exposes its state as a datatype through `State()`. Every method ensures that its new state equals a pure transition function applied to the old state. Examples are `SolveStep`, `CookieHeaderStep`, `GuardedFetch`, `LocationsStep`, `FindAvailableSiteStep` and `Pass`. The properties of the source are proved about those functions and the lemmas beside them. The loops of the source stay loops:
- the child loop of `checkMapRecursive` (`Crawler.CheckMapRecursive`);
- the notification loop of `findAvailableSite` (`Scanning.Scanner.SendHitNotices`);
- the search loop of `update` (`Scanning.Scanner.Update`).

Each loop is proved against its specification function.

Everything outside the program becomes a parameter:
- **The headless-browser solve:** a function from the index of the cookie read within one `wafFetch` call (0 for the first read, 1 for the read after an invalidation) to the outcome of the solve that read waits for, either a cookie list or a failure.
- **The HTTP transport of the guarded fetch:** a function from the number of the request to its response.
- **The map-availability API:** a function from a query (base URL, map id, dates) to the parsed body or the error.
- **The resource-location API:** a function from the URL and the number of earlier location fetches to the parsed list.
- **The clock:** two readings for the `catch` of each search, one for the comparison and one for the record.

JavaScript objects that the source enumerates become association lists in enumeration order, for example `resourceAvailabilities` and `mapLinkAvailabilities`. The single-site check relies on their keys being distinct.

The crawl has no visited set; neither does `checkMapRecursive`. It terminates under a precondition, `Crawler.Ranked`: there is a rank on queries that every followed child link decreases, which means the map graph has no cycle along open links.

Three facts about the code shape the model:

- **Errors that escape `update`.** `update` catches no error from a site search (campground-scanner.js:79, 104-113) and none from an unknown base-URL key (campground-scanner.js:74). Such an error ends the pass, and the remaining searches do not run. Only the errors of map searches are caught and throttled (campground-scanner.js:155-162). `Scanning.Pass` models that.
- **Every hit is notified.** `findAvailableSite` filters no hit out, by name, by date or by an exclusion list (campground-scanner.js:150-154). Each notice names the search, or else the map that holds the site; it never names a parent map.
- **The name passed to `findResourceLocation`.** `update` always passes the label, which is never empty (`Scanning.Label`). So the "no search name" case of `findResourceLocation` cannot arise from `update`, and the "Map <id>" fallback of the hit notice cannot arise either. Both are still modelled.

## Model

| member | source | states |
|---|---|---|
| Common.Lower | campground-scanner.js:96 | `toLowerCase` keeps the length, lowers each ASCII capital, and leaves no capital behind |
| Common.LowerIdempotent | campground-scanner.js:96-100 | lower-casing twice is lower-casing once |
| Common.Includes | campground-scanner.js:99-100 | `s.includes(t)` holds exactly when `t` occurs in `s` at some index |
| WafSessions.CookieHeader | waf-session.js:51 | the header is empty exactly when the cookie list is empty; otherwise it starts with the first `name=value` pair |
| WafSessions.CookieHeaderRoundTrip | waf-session.js:51 | splitting the header at `; ` and each pair at its first `=` gives back the cookie list, in order (cookies whose names and values are tokens) |
| WafSessions.NewSession | waf-session.js:4-8 | a new session has no cookies and no solve in flight, and satisfies the single-flight invariant |
| WafSessions.SolveStep | waf-session.js:11-19 | with a solve pending, `solve` returns that pending solve and changes nothing; otherwise it starts exactly one new underlying solve and makes it the pending one; cookies are untouched and single flight is kept |
| WafSessions.Settle | waf-session.js:15-17 | settling clears the pending slot whatever the outcome; a success installs exactly the browser's cookie list; a failure leaves the cookies as they were; no solve is started |
| WafSessions.InvalidateStep | waf-session.js:55-57 | `invalidate` nulls the cookies and changes nothing else; a pending solve is not cancelled |
| WafSessions.SolvedHeader | waf-session.js:49-52 | a caller that waited for a solve gets the header of the solved cookies, or the solve's error; `CookieHeaderStep` uses it for a caller without cookies and `CookieHeaderRoundTrip` shows the header gives back the cookies |
| WafSessions.CookieHeaderStep | waf-session.js:49-52 | cached cookies, even an empty list, are serialised without solving; with no cookies exactly one solve is awaited (a new one only if none was pending) and its outcome decides the header and the new cookies |
| WafSessions.Step | waf-session.js:11-19 | one scheduling step: only a caller entering `solve` with nothing pending starts a solve; a settlement clears the pending slot; an invalidation nulls the cookies and keeps the pending solve |
| WafSessions.Run | waf-session.js:11-19 | a schedule in which no caller enters `solve` starts no underlying solve |
| WafSessions.RunKeepsSingleFlight | waf-session.js:11-19 | every interleaving of callers entering `solve`, settlements and invalidations keeps the single-flight invariant |
| WafSessions.LaunchesBoundedBySettlements | waf-session.js:13-17 | in any interleaving, underlying solves start at most once per settlement, plus one if none was pending |
| WafSessions.ConcurrentCallersShareOneSolve | waf-session.js:13-18 | `n` callers entering `solve` with no settlement in between all get the same pending solve, and at most one underlying solve starts |
| WafSessions.WafSession.constructor | waf-session.js:4-8 | the session is created for its base URL in the state `NewSession` |
| WafSessions.WafSession.Solve | waf-session.js:11-19 | the fields change as `SolveStep` says, keeping the invariant |
| WafSessions.WafSession.FinishSolve | waf-session.js:36-45 | the end of `_doSolve` and the `finally` of `solve`: the pending solve settles as `Settle` says; a success sets `cookies` to the browser's list, a failure leaves them unchanged |
| WafSessions.WafSession.GetCookieHeader | waf-session.js:49-52 | result and fields as `CookieHeaderStep` says |
| WafSessions.WafSession.Invalidate | waf-session.js:55-57 | the fields change as `InvalidateStep` says |
| WafFetch.OriginKeyInjective | waf-fetch.js:9-15 | two URLs get the same registry key exactly when scheme and host agree |
| WafFetch.OriginKey | waf-fetch.js:10 | the registry key is the URL's `scheme://host` followed by `/` |
| WafFetch.LooksLikeWafChallenge | waf-fetch.js:17-21 | a challenge exactly when the status is 403 or the content type contains `text/html`; with no content type, exactly when the status is 403 |
| WafFetch.MergeHeaders | waf-fetch.js:27-31 | the merged headers always carry `User-Agent` and the session cookie as `Cookie` |
| WafFetch.MergeHeadersContents | waf-fetch.js:27-31 | the merged headers hold exactly the caller's keys plus `User-Agent` and `Cookie`; `Cookie` is always the session header; a caller `User-Agent` overrides the default; every other caller header is kept |
| WafFetch.GuardedFetch | waf-fetch.js:23-57 | one call starts at most two underlying solves and keeps single flight |
| WafFetch.RetryExchange | waf-fetch.js:39-56 | the challenged branch starts at most one underlying solve and keeps single flight |
| WafFetch.NoCookieTrace | waf-fetch.js:24-25 | when the first cookie read fails, nothing is sent and its error is the result |
| WafFetch.UnchallengedTrace | waf-fetch.js:33-37 | an unchallenged first answer is returned after one request and no invalidation |
| WafFetch.ChallengedTrace | waf-fetch.js:39-56 | a challenged first answer is followed by one invalidation, then the fresh cookie read, then one retry with that cookie, if the read succeeded; a challenged retry throws the "still getting challenge" error |
| WafFetch.RetryExchangeTrace | waf-fetch.js:41-50 | the challenged branch adds one invalidation, then a cookie read, then at most one request with the fresh cookie |
| WafFetch.AtMostOneRetry | waf-fetch.js:23-57 | every call sends at most two requests and invalidates at most once; every request goes to the same URL with the merged headers |
| WafFetch.UnchallengedFirstAnswer | waf-fetch.js:24-37 | no request exactly when the first cookie read fails; the first request carries the first cookie; an unchallenged first answer is the result |
| WafFetch.ChallengeInvalidatesOnce | waf-fetch.js:35-42 | there is an invalidation exactly when a first answer was received and was a challenge; it sits between the first request and the fresh cookie read |
| WafFetch.RetryUsesFreshCookie | waf-fetch.js:42-56 | the retry carries the cookie of the solve that followed the invalidation; a challenged retry throws, any other retry answer is the result; a failed re-solve sends no retry and its error is the result |
| WafFetch.GuardedRequest | waf-fetch.js:24-56 | result and session state as `GuardedFetch` says, keeping the session invariant |
| WafFetch.RetryWithFreshCookie | waf-fetch.js:41-56 | result and session state as `RetryExchange` says |
| WafFetch.WafClient.constructor | waf-fetch.js:7 | the registry starts empty |
| WafFetch.WafClient.GetSession | waf-fetch.js:9-15 | the URL's origin key maps to the returned session; an existing session is reused and the registry is unchanged; otherwise a fresh session for that origin is added and nothing else changes |
| WafFetch.WafClient.Fetch | waf-fetch.js:23-57 | only the session of the URL's origin is created or changed, and it changes as `GuardedFetch` says, from its old state or a new session |
| CampgroundApi.ResolveBaseUrl | campground-scanner.js:59-63 | `canada` and `bc` map to the two base URLs; every other key fails with "Unknown baseUrl key" |
| CampgroundApi.ProfileOf | campground-scanner.js:105 | the Parks Canada parameter table is chosen exactly for the Canada base URL; every other base URL gets the BC Parks table |
| CampgroundApi.ResolvedProfile | campground-scanner.js:105 | a resolved base URL selects the Canada parameter table exactly for `canada` |
| CampgroundApi.English | campground-scanner.js:98 | the first localized value whose culture name starts with `en`, or none exactly when there is none |
| CampgroundApi.FirstMatchIndex | campground-scanner.js:97-101 | none exactly when no location matches; otherwise the index of the first matching location |
| CampgroundApi.FindResourceLocation | campground-scanner.js:94-102 | null for an absent or empty name; otherwise null exactly when no location satisfies `LocationMatches`, that is, when no location's English full or short name contains the lower-cased name; otherwise the first matching location |
| CampgroundApi.FindIgnoresCase | campground-scanner.js:96 | searching for the lower-cased name gives the same result |
| CampgroundApi.BookingLocationId | campground-scanner.js:147 | the booking parameter `resourceLocationId` is non-empty exactly when a location was found and its id is present and non-zero |
| CampgroundApi.OpenSites | campground-scanner.js:125 | a filter error reads `availability` of `undefined`; otherwise the hits are no more than the entries and are all tagged with the queried map |
| CampgroundApi.OpenSitesMeaning | campground-scanner.js:125 | the filter throws exactly when some site has an empty availability list; otherwise a hit is in the result exactly when it is a site whose first availability is 0, tagged with the map id |
| CampgroundApi.OpenSitesAppend | campground-scanner.js:125 | the filter keeps the order of the entries |
| CampgroundApi.OpenLinks | campground-scanner.js:126 | a child is kept exactly when its first flag is 0 |
| CampgroundApi.OpenLinksAppend | campground-scanner.js:126 | the child filter keeps the order of the links |
| CampgroundApi.CheckAvailability | campground-scanner.js:116-129 | it fails exactly when the site filter fails; the hits are exactly the filter's, tagged with the map id; the children are the open links; absent fields count as `{}` |
| CampgroundApi.SiteAvailability | campground-scanner.js:108 | the first availability of the site, or the TypeError of each missing step: no `resourceAvailabilities`, no entry for the site, an empty list; `SiteCheckAgreesWithCrawl` ties it to the crawl's hits |
| CampgroundApi.SiteCheckAgreesWithCrawl | campground-scanner.js:108 | with distinct keys, the site check sees availability 0 exactly when the crawl of that map lists the site as a hit |
| Crawler.Look | campground-scanner.js:116-129 | a transport error passes through; otherwise the body is read by `CheckAvailability`; `CrawlPreOrder` and `CrawlQueriesOpenChildren` state what a walk of `Look` answers collects |
| Crawler.Crawl | campground-scanner.js:131-139 | the walk starts by querying its own map; an error there is the result |
| Crawler.CrawlChildren | campground-scanner.js:134-137 | the walk of a prefix of the open children also starts by querying its own map |
| Crawler.CrawlPreOrder | campground-scanner.js:131-139 | a successful walk answered every map it queried, and its hits are those maps' own hits, in query order (pre-order) |
| Crawler.CrawlChildrenPreOrder | campground-scanner.js:134-137 | the same for the walk of a prefix of the open children |
| Crawler.CrawlFollowsOpenLinks | campground-scanner.js:135-137 | every map queried after the first was linked with flag 0 from a map queried before it, so a child with a nonzero flag is never queried |
| Crawler.CrawlChildrenFollowsOpenLinks | campground-scanner.js:135-137 | the same for the walk of a prefix of the open children |
| Crawler.CrawlQueriesOpenChildren | campground-scanner.js:131-139 | a successful walk queried every open child of every map it queried, so no map reachable along flag-0 links is skipped |
| Crawler.CrawlChildrenQueriesOpenChildren | campground-scanner.js:134-137 | a successful walk of a prefix of the open children queried each of them, and every open child of each map it queried other than the root |
| Crawler.CrawlChildrenStopsAtError | campground-scanner.js:133-137 | the first failing child ends the walk: no later child is queried |
| Crawler.CheckMapRecursive | campground-scanner.js:131-139 | the loop collects the same hits and queries the same maps, in the same order, as `Crawl` |
| Crawler.SkipsClosedChild | campground-scanner.js:131-139 | on the tree root → {A (flag 0), B (flag 1)}, A → {C (flag 0)}, with site 7 open in C, the walk queries root, A, C and finds exactly site 7 of C |
| ErrorThrottle.Report | campground-scanner.js:156-161 | a message notifies (`ShouldNotify`) exactly when it has no record or its record is at or before the check time minus 30 minutes; notifying records the second clock reading; a suppressed message leaves the records unchanged; other messages are never touched |
| ErrorThrottle.Replay | campground-scanner.js:155-162 | the throttle over a sequence of failures gives one notification flag per failure, and never drops a record |
| ErrorThrottle.ReplayAppend | campground-scanner.js:155-162 | replaying two runs of failures gives the first run's flags followed by those of the second run replayed from the records the first left, and the second run's final records |
| ErrorThrottle.ClockedAppend | campground-scanner.js:155-160 | two clocked runs of failures make one clocked run |
| ErrorThrottle.ReplaySpaced | campground-scanner.js:156-161 | over any sequence of failures, two notifications of one message are at least 30 minutes apart |
| ErrorThrottle.SuppressedOnlyWhenRecent | campground-scanner.js:156-161 | starting from no records, a failure is suppressed only because of an earlier notification of the same message recorded less than 30 minutes before it |
| ErrorThrottle.FiveAndFortyMinutes | campground-scanner.js:156-160 | one message failing twice, 5 minutes apart, notifies once; failing twice 40 minutes apart, it notifies twice |
| Scanning.Label | campground-scanner.js:75 | the label is the search's non-empty name, else `mapId (startDate - endDate)`; it is never empty |
| Scanning.HitNotice | campground-scanner.js:151-153 | the booking notice links to the hit's map with the location id, has as its message the label or `Map <id>`, and is not an error notice |
| Scanning.ErrorNotice | campground-scanner.js:159 | the error notice carries the error's message and no link, at priority -1 |
| Scanning.SiteNotice | campground-scanner.js:109-110 | the site notice links to the bookings page, is titled with the label, and is not an error notice |
| Scanning.HitNotices | campground-scanner.js:150-154 | one booking notice per hit, in hit order, each linking to the hit's map with the location id, at priority 1 |
| Scanning.LocationsStep | campground-scanner.js:86-92 | a cached base URL returns its cached list without fetching; otherwise exactly one fetch of `LocationsUrl`, the base URL's `api/resourceLocation`, is made, and a successful answer is cached; existing entries never change |
| Scanning.LocationsStepKeepsLog | campground-scanner.js:86-92 | a lookup never refetches a location URL that was fetched successfully before |
| Scanning.Throttle | campground-scanner.js:155-162 | the `catch` updates the records as `Report` says and sends the error notice exactly when it notifies; `ThrottleThrottles` restates this as one step of `Replay` |
| Scanning.FindAvailableSiteStep | campground-scanner.js:143-163 | a map search keeps every cache entry, fetch and notification, and fetches only location lists of base URLs that were not cached |
| Scanning.MapSearchSendsHits | campground-scanner.js:143-154 | a map search whose location fetch and crawl succeed sends exactly one booking notice per own hit of the maps the crawl queried, in pre-order, with the found location id; every map reachable along flag-0 links was queried; the error records are unchanged |
| Scanning.FailedMapSearchSendsOnlyError | campground-scanner.js:149-162 | a failed map search sends at most the error notice and no booking notice |
| Scanning.SiteStep | campground-scanner.js:104-113 | a site search fails exactly when the map fetch or the availability read fails, with that error; otherwise it sends the site notice exactly when the site's first availability is 0, and changes nothing else |
| Scanning.SearchStep | campground-scanner.js:72-84 | an error escapes only from an unknown base-URL key or a site search (`IsSite`); an unknown key fails with its error; a search keeps every cache entry, fetch and notification |
| Scanning.Pass | campground-scanner.js:72-84 | `update` over the searches in order: a pass only appends to the fetch log and to the notifications |
| Scanning.PassAbortIsFinal | campground-scanner.js:72-84 | once an error has escaped, the rest of the searches have no effect |
| Scanning.PassFailureSource | campground-scanner.js:72-84 | a pass that fails stopped at a search `k` that is a site search or has an unknown base-URL key: the searches before `k` ran without failure, search `k` failed, and the pass's outcome is that of its first `k + 1` searches |
| Scanning.PassWithoutEscapesCompletes | campground-scanner.js:72-84 | a pass with no site search and no unknown base-URL key never fails |
| Scanning.SiteSearchesKeepRecords | campground-scanner.js:104-113 | a pass of site searches changes neither the location cache, nor the fetch log, nor the error records |
| Scanning.PassExtends | campground-scanner.js:72-92 | a pass keeps every cache entry, fetch and notification, and never fetches the locations of a base URL already cached |
| Scanning.PassFetchesOnce | campground-scanner.js:86-92 | over a pass, starting from a consistent fetch log, a location URL fetched successfully is never fetched again |
| Scanning.MapSearchError | campground-scanner.js:144-155 | the error a map search catches is the failed location fetch's, or else the failed crawl's, or none; `MapStepThrottles` shows that error is what the throttle sees, and `MapSearchSendsHits` covers the case of none |
| Scanning.CaughtFailure | campground-scanner.js:155-160 | a search hands a failure to the throttle only when it is a map search with a known base URL, with the two clock readings of its `catch` |
| Scanning.PassFailures | campground-scanner.js:72-84 | the failures a pass hands to the throttle are at most one per search, and with a clock that does not run backwards inside a `catch` they are clocked |
| Scanning.MapStepThrottles | campground-scanner.js:143-163 | a map search changes the records as `Report` says for the error it caught, and sends the error notice exactly when the throttle lets it through; a search without error leaves the records and the error notices alone |
| Scanning.SearchStepThrottles | campground-scanner.js:72-84 | the same for any search that does not escape |
| Scanning.PassThrottles | campground-scanner.js:72-84 | a pass's records are `Replay`'s records after the failures it caught, in order, and the error notices it sends are exactly those of the failures `Replay` lets through |
| Scanning.PassErrorNoticesSpaced | campground-scanner.js:155-161 | two error notices of one message that one pass sends come from failures checked at least 30 minutes apart |
| Scanning.NotifiedAppend | campground-scanner.js:155-161 | the notices of two runs of failures are those of the first run followed by those of the second |
| Scanning.ThrottleCompose | campground-scanner.js:155-162 | two throttled runs, the second starting from the records of the first, are one throttled run of both |
| Scanning.TwoPassesThrottle | campground-scanner.js:72-162 | two consecutive passes keep the records and send the error notices of one `Replay` over both passes' failures, and with a forward clock the 30-minute spacing holds across the two passes |
| Scanning.PassSuppressesOnlyWhenRecent | campground-scanner.js:155-161 | from the empty records of load time, a failure of a pass is kept quiet only by an earlier notification of the same message in that pass, recorded less than 30 minutes before it |
| Scanning.Scanner.constructor | campground-scanner.js:70 | the cache, the records and the outbox start empty |
| Scanning.Scanner.GetResourceLocations | campground-scanner.js:86-92 | result and fields as `LocationsStep` says |
| Scanning.Scanner.Catch | campground-scanner.js:155-162 | the fields change as `Throttle` says |
| Scanning.Scanner.FindAvailableSite | campground-scanner.js:143-163 | the fields change as `FindAvailableSiteStep` says |
| Scanning.Scanner.SendHitNotices | campground-scanner.js:150-154 | the loop sends `HitNotices`, in order |
| Scanning.Scanner.CheckSiteAvailability | campground-scanner.js:104-113 | the failure and fields agree with `SiteStep` |
| Scanning.Scanner.RunSearch | campground-scanner.js:73-83 | the failure and fields agree with `SearchStep` |
| Scanning.Scanner.Update | campground-scanner.js:72-84 | the loop ends in the state and with the escaped error that `Pass` gives |

## Left out

- **The headless-browser solve** (waf-session.js:22-34, 39, 41). Launching the browser, navigating, the 5-second wait and context creation belong to a foreign library. The solve is an outcome parameter: a cookie list or an error message. Closing the browser on both outcomes (waf-session.js:43-45) is part of that library's lifecycle and is not modelled.
- **Real promise concurrency.** The single-flight guard is modelled as explicit steps (enter `solve`, settle, invalidate) interleaved in any order (`WafSessions.Run`). `WafSession.GetCookieHeader` runs one solve to settlement. A settlement is one atomic step: it installs the cookies and clears the pending slot together. In the source, `this.cookies` is set (waf-session.js:37) while `_solving` is still pending through `await browser.close()` (waf-session.js:43-44), so a caller arriving then reads the new cookies while the solve is still in flight. The model has no state for that window.
- WafSessions.CookieHeaderStep: when another caller invalidates between the settlement and `this.cookies.map`, the real call throws. The model has no step there; it is the same interleaving gap.
- **`node-fetch` and `.json()`** (waf-fetch.js:33, 50; campground-scanner.js:88-89, 106, 119). Responses are a status and an optional content type. Parsed bodies arrive already decoded or as an error. JSON parse errors count as transport errors. Bodies that are not an array of locations or not an object are not modelled. Of the `options` of `wafFetch` (default `{}`, waf-fetch.js:23, 33, 50) only the headers are modelled; every other option (method, body, redirect and the like) is passed to `fetch` unchanged and is not modelled.
- **URL parsing** (`new URL(url).origin`, waf-fetch.js:10). A URL is already split into scheme, host and path. The origin is their concatenation: the lower-casing of the host and the dropping of a default port that `URL` performs are not modelled.
- **`URLSearchParams` and the constant parameter tables** (campground-scanner.js:13-54, 105, 117, 152). They are data and percent-encoding. A map query is its base URL, map id and dates. The booking link keeps its map, location id, dates and table choice apart.
- **Notification delivery** (Pushover, `require.main`, console output, campground-scanner.js:1-10). Notifications are collected in an outbox. A failing `notify` is not modelled. A failing booking `notify` (campground-scanner.js:153) would be caught and throttled like any other error of the search. A failing error `notify` (campground-scanner.js:159) runs inside the `catch`: its error would escape `findAvailableSite` before the record of line 160 is written, and would end the pass. In `checkSiteAvailability` a failing `notify` would be an unhandled rejection, since that call is not awaited.
- **The daemon loop** (`loop`, `setTimeout`, campground-scanner.js:165-178). `Pass` starts from any state, so consecutive passes compose (`TwoPassesThrottle` for the throttle), but the scheduling is not modelled.
- **Configuration loading** (campground-scanner.js:2-3). The searches are a parameter of `Update`.
- Common.Lower: lower-cases ASCII letters only. JavaScript also lower-cases other alphabets.
- CampgroundApi.English: a localized value without `cultureName` would throw a TypeError. The model requires it to be present.
- CampgroundApi.SiteCheckAgreesWithCrawl: assumes distinct keys, as `JSON.parse` produces. The rest of the model works on association lists in enumeration order. JavaScript's own ordering of integer-like keys is taken to be that order.
- Crawler.Crawl: ends only on an acyclic map graph (the `Ranked` precondition). On a cyclic graph the source never stack-overflows, because each level awaits its fetch before recursing. Instead it re-queries the cycle forever: that pass of `update` never returns, so `loop` (campground-scanner.js:165-172) never schedules another one. That case is not modelled.
- **The map API within one pass.** It is the same function for every query. A site that answers the same query differently within one pass is not modelled.

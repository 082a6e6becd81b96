/** `checkMapRecursive` of campground-scanner.js: a pre-order walk from a root
    map down every child link whose flag is 0, collecting the available sites
    of every map it reads.

    The map API is an oracle from the query to the parsed body (or the error
    the guarded fetch or the JSON parsing threw). The code keeps no visited
    set, so the walk ends only because the map graph has no cycle: this is
    the precondition `Ranked`, a rank on queries that every followed link
    decreases. */
module Crawler {
  import opened Common
  import opened CampgroundApi

  type MapApi = MapQuery -> Result<MapAvailability>

  /** `checkAvailability(baseUrl, mapId, startDate, endDate)`: fetch one map and read its body. */
  function Look(api: MapApi, q: MapQuery): (r: Result<MapResult>)
    ensures api(q).Err? ==> r == Err(api(q).error)
    ensures api(q).Ok? ==> r == CheckAvailability(q.mapId, api(q).value)
  {
    match api(q)
    case Err(e) => Err(e)
    case Ok(data) => CheckAvailability(q.mapId, data)
  }

  /** The query of child map `m`: same base URL and dates. */
  function Child(q: MapQuery, m: string): MapQuery {
    q.(mapId := m)
  }

  /** Every followed link leads to a query of smaller rank: the map graph is acyclic. */
  ghost predicate Ranked(api: MapApi, rank: MapQuery -> nat) {
    forall q, c :: Look(api, q).Ok? && c in Look(api, q).value.maps ==> rank(Child(q, c)) < rank(q)
  }

  /** The outcome of a walk: the collected hits (or the error that stopped
      it) and the ids of the maps it queried, in order. */
  datatype Walk = Walk(hits: Result<seq<Hit>>, queried: seq<string>)

  /** `checkMapRecursive(baseUrl, mapId, startDate, endDate)` */
  function Crawl(api: MapApi, rank: MapQuery -> nat, q: MapQuery): (w: Walk)
    requires Ranked(api, rank)
    ensures |w.queried| >= 1 && w.queried[0] == q.mapId
    ensures Look(api, q).Err? ==> w == Walk(Err(Look(api, q).error), [q.mapId])
    decreases rank(q), 1, 0
  {
    match Look(api, q)
    case Err(e) => Walk(Err(e), [q.mapId])
    case Ok(res) => CrawlChildren(api, rank, q, res, res.maps)
  }

  /** The walk of `q` up to and including its open children `cs`, a prefix
      of them: the map's own hits, then each child's walk in order; the first
      error stops the walk. */
  function CrawlChildren(api: MapApi, rank: MapQuery -> nat, q: MapQuery, res: MapResult, cs: seq<string>): (w: Walk)
    requires Ranked(api, rank) && Look(api, q) == Ok(res) && cs <= res.maps
    ensures |w.queried| >= 1 && w.queried[0] == q.mapId
    decreases rank(q), 0, |cs|
  {
    if cs == [] then Walk(Ok(res.campgrounds), [q.mapId])
    else
      var w := CrawlChildren(api, rank, q, res, cs[..|cs| - 1]);
      if w.hits.Err? then w
      else
        var c := cs[|cs| - 1];
        assert c == res.maps[|cs| - 1];
        var sub := Crawl(api, rank, Child(q, c));
        Walk(if sub.hits.Err? then sub.hits else Ok(w.hits.value + sub.hits.value), w.queried + sub.queried)
  }

  // ---------------------------------------------------------------------------
  // What the walk collects.

  /** The hits map `id` itself reports, read with the query of `q`. */
  function HitsOf(api: MapApi, q: MapQuery, id: string): seq<Hit> {
    match Look(api, Child(q, id))
    case Ok(r) => r.campgrounds
    case Err(_) => []
  }

  /** The own hits of the maps `ids`, in order. */
  function OwnHits(api: MapApi, q: MapQuery, ids: seq<string>): seq<Hit> {
    if ids == [] then [] else HitsOf(api, q, ids[0]) + OwnHits(api, q, ids[1..])
  }

  lemma {:induction false} OwnHitsAppend(api: MapApi, q: MapQuery, a: seq<string>, b: seq<string>)
    ensures OwnHits(api, q, a + b) == OwnHits(api, q, a) + OwnHits(api, q, b)
    decreases |a|
  {
    if a == [] {
      assert a + b == b;
    } else {
      assert (a + b)[0] == a[0] && (a + b)[1..] == a[1..] + b;
      OwnHitsAppend(api, q, a[1..], b);
    }
  }

  /** The own hits depend on the base URL and dates of the query, not on its map id. */
  lemma {:induction false} OwnHitsRebase(api: MapApi, q: MapQuery, m: string, ids: seq<string>)
    ensures OwnHits(api, Child(q, m), ids) == OwnHits(api, q, ids)
    decreases |ids|
  {
    if ids != [] {
      assert Child(Child(q, m), ids[0]) == Child(q, ids[0]);
      OwnHitsRebase(api, q, m, ids[1..]);
    }
  }

  /** Every map in `ids` answered with a readable body. */
  ghost predicate AllAnswered(api: MapApi, q: MapQuery, ids: seq<string>) {
    forall i :: 0 <= i < |ids| ==> Look(api, Child(q, ids[i])).Ok?
  }

  lemma AllAnsweredJoin(api: MapApi, q: MapQuery, m: string, a: seq<string>, b: seq<string>)
    requires AllAnswered(api, q, a) && AllAnswered(api, Child(q, m), b)
    ensures AllAnswered(api, q, a + b)
  {
    forall i | 0 <= i < |a + b|
      ensures Look(api, Child(q, (a + b)[i])).Ok?
    {
      if i >= |a| {
        assert (a + b)[i] == b[i - |a|];
        assert Child(Child(q, m), b[i - |a|]) == Child(q, b[i - |a|]);
      }
    }
  }

  /** Pre-order: a walk that succeeds returns exactly the own hits of the maps it queried, in the order it queried them. */
  lemma {:induction false} CrawlPreOrder(api: MapApi, rank: MapQuery -> nat, q: MapQuery)
    requires Ranked(api, rank)
    ensures var w := Crawl(api, rank, q);
      w.hits.Ok? ==> AllAnswered(api, q, w.queried) && w.hits.value == OwnHits(api, q, w.queried)
    decreases rank(q), 1, 0
  {
    if Look(api, q).Ok? {
      var res := Look(api, q).value;
      CrawlChildrenPreOrder(api, rank, q, res, res.maps);
    }
  }

  lemma {:induction false} CrawlChildrenPreOrder(api: MapApi, rank: MapQuery -> nat, q: MapQuery, res: MapResult, cs: seq<string>)
    requires Ranked(api, rank) && Look(api, q) == Ok(res) && cs <= res.maps
    ensures var w := CrawlChildren(api, rank, q, res, cs);
      w.hits.Ok? ==> AllAnswered(api, q, w.queried) && w.hits.value == OwnHits(api, q, w.queried)
    decreases rank(q), 0, |cs|
  {
    assert Child(q, q.mapId) == q;
    if cs == [] {
      assert [q.mapId][1..] == [];
    } else {
      var w := CrawlChildren(api, rank, q, res, cs[..|cs| - 1]);
      CrawlChildrenPreOrder(api, rank, q, res, cs[..|cs| - 1]);
      if w.hits.Ok? {
        var c := cs[|cs| - 1];
        assert c == res.maps[|cs| - 1];
        var qc := Child(q, c);
        var sub := Crawl(api, rank, qc);
        CrawlPreOrder(api, rank, qc);
        if sub.hits.Ok? {
          OwnHitsRebase(api, q, c, sub.queried);
          OwnHitsAppend(api, q, w.queried, sub.queried);
          AllAnsweredJoin(api, q, c, w.queried, sub.queried);
        }
      }
    }
  }

  /** Map `c` is a child of map `parent` whose flag is 0. */
  ghost predicate OpenChild(api: MapApi, q: MapQuery, parent: string, c: string) {
    Look(api, Child(q, parent)).Ok? && c in Look(api, Child(q, parent)).value.maps
  }

  /** Every map after the first is an open child of one queried before it. */
  ghost predicate FollowsOpenLinks(api: MapApi, q: MapQuery, ids: seq<string>) {
    forall i :: 0 < i < |ids| ==> HasOpenParent(api, q, ids, i)
  }

  /** Map `ids[i]` is an open child of a map queried before it. */
  ghost predicate HasOpenParent(api: MapApi, q: MapQuery, ids: seq<string>, i: int)
    requires 0 <= i < |ids|
  {
    exists j :: 0 <= j < i && OpenChild(api, q, ids[j], ids[i])
  }

  lemma FollowsOpenLinksAppend(api: MapApi, q: MapQuery, a: seq<string>, b: seq<string>)
    requires |a| > 0 && |b| > 0 && OpenChild(api, q, a[0], b[0])
    requires FollowsOpenLinks(api, q, a) && FollowsOpenLinks(api, q, b)
    ensures FollowsOpenLinks(api, q, a + b)
  {
    var ab := a + b;
    forall i | 0 < i < |ab|
      ensures HasOpenParent(api, q, ab, i)
    {
      if i < |a| {
        assert HasOpenParent(api, q, a, i);
        var j :| 0 <= j < i && OpenChild(api, q, a[j], a[i]);
        assert ab[j] == a[j] && ab[i] == a[i];
      } else if i == |a| {
        assert ab[0] == a[0] && ab[i] == b[0];
      } else {
        assert HasOpenParent(api, q, b, i - |a|);
        var j :| 0 <= j < i - |a| && OpenChild(api, q, b[j], b[i - |a|]);
        assert ab[j + |a|] == b[j] && ab[i] == b[i - |a|];
      }
    }
  }

  /** Links are read with the query's base URL and dates, whatever its map id. */
  lemma FollowsOpenLinksRebase(api: MapApi, q: MapQuery, m: string, ids: seq<string>)
    requires FollowsOpenLinks(api, Child(q, m), ids)
    ensures FollowsOpenLinks(api, q, ids)
  {
    forall i | 0 < i < |ids|
      ensures HasOpenParent(api, q, ids, i)
    {
      assert HasOpenParent(api, Child(q, m), ids, i);
      var j :| 0 <= j < i && OpenChild(api, Child(q, m), ids[j], ids[i]);
      assert Child(Child(q, m), ids[j]) == Child(q, ids[j]);
      assert OpenChild(api, q, ids[j], ids[i]);
    }
  }

  /** A child whose flag is not 0 is never queried: the walk starts at the
      root and moves only along open links of maps it already read. */
  lemma {:induction false} CrawlFollowsOpenLinks(api: MapApi, rank: MapQuery -> nat, q: MapQuery)
    requires Ranked(api, rank)
    ensures FollowsOpenLinks(api, q, Crawl(api, rank, q).queried)
    decreases rank(q), 1, 0
  {
    if Look(api, q).Ok? {
      var res := Look(api, q).value;
      CrawlChildrenFollowsOpenLinks(api, rank, q, res, res.maps);
    }
  }

  lemma {:induction false} CrawlChildrenFollowsOpenLinks(api: MapApi, rank: MapQuery -> nat, q: MapQuery, res: MapResult, cs: seq<string>)
    requires Ranked(api, rank) && Look(api, q) == Ok(res) && cs <= res.maps
    ensures FollowsOpenLinks(api, q, CrawlChildren(api, rank, q, res, cs).queried)
    decreases rank(q), 0, |cs|
  {
    if cs != [] {
      var w := CrawlChildren(api, rank, q, res, cs[..|cs| - 1]);
      CrawlChildrenFollowsOpenLinks(api, rank, q, res, cs[..|cs| - 1]);
      if w.hits.Ok? {
        var c := cs[|cs| - 1];
        assert c == res.maps[|cs| - 1];
        var qc := Child(q, c);
        var sub := Crawl(api, rank, qc);
        CrawlFollowsOpenLinks(api, rank, qc);
        FollowsOpenLinksRebase(api, q, c, sub.queried);
        assert Child(q, q.mapId) == q;
        FollowsOpenLinksAppend(api, q, w.queried, sub.queried);
      }
    }
  }

  /** Every open child of a map in `ids` is in `ids` too. */
  ghost predicate Closed(api: MapApi, q: MapQuery, ids: seq<string>) {
    forall i, c :: 0 <= i < |ids| && OpenChild(api, q, ids[i], c) ==> c in ids
  }

  /** The same, except for the open children of `root`. */
  ghost predicate ClosedBelow(api: MapApi, q: MapQuery, ids: seq<string>, root: string) {
    forall i, c :: 0 <= i < |ids| && ids[i] != root && OpenChild(api, q, ids[i], c) ==> c in ids
  }

  /** Completeness: a walk that succeeds queried every open child of every
      map it queried, so no map reachable along flag-0 links is skipped. */
  lemma {:induction false} CrawlQueriesOpenChildren(api: MapApi, rank: MapQuery -> nat, q: MapQuery)
    requires Ranked(api, rank)
    ensures var w := Crawl(api, rank, q); w.hits.Ok? ==> Closed(api, q, w.queried)
    decreases rank(q), 1, 0
  {
    if Look(api, q).Ok? {
      var res := Look(api, q).value;
      var w := Crawl(api, rank, q);
      CrawlChildrenQueriesOpenChildren(api, rank, q, res, res.maps);
      if w.hits.Ok? {
        forall i, c | 0 <= i < |w.queried| && OpenChild(api, q, w.queried[i], c)
          ensures c in w.queried
        {
          if w.queried[i] == q.mapId {
            assert Child(q, q.mapId) == q;
            var k :| 0 <= k < |res.maps| && res.maps[k] == c;
            assert Covers(w.queried, res.maps);
          }
        }
      }
    }
  }

  /** Closedness of two joined walks: `b` walked from child `m` is closed, read with the query of `q`. */
  lemma ClosedJoin(api: MapApi, q: MapQuery, m: string, a: seq<string>, b: seq<string>, root: string)
    requires ClosedBelow(api, q, a, root) && Closed(api, Child(q, m), b)
    ensures ClosedBelow(api, q, a + b, root)
  {
    var ab := a + b;
    forall i, c | 0 <= i < |ab| && ab[i] != root && OpenChild(api, q, ab[i], c)
      ensures c in ab
    {
      if i < |a| {
        assert ab[i] == a[i];
      } else {
        var j := i - |a|;
        assert ab[i] == b[j];
        assert Child(Child(q, m), b[j]) == Child(q, b[j]);
        assert OpenChild(api, Child(q, m), b[j], c);
      }
    }
  }

  /** Every map of `cs` is in `ids`. */
  ghost predicate Covers(ids: seq<string>, cs: seq<string>) {
    forall k :: 0 <= k < |cs| ==> cs[k] in ids
  }

  lemma CoversNext(a: seq<string>, b: seq<string>, cs: seq<string>)
    requires |cs| > 0 && |b| > 0 && b[0] == cs[|cs| - 1] && Covers(a, cs[..|cs| - 1])
    ensures Covers(a + b, cs)
  {
    forall k | 0 <= k < |cs|
      ensures cs[k] in a + b
    {
      if k < |cs| - 1 {
        assert cs[..|cs| - 1][k] == cs[k];
      } else {
        assert (a + b)[|a|] == b[0];
      }
    }
  }

  /** The walk up to the open children `cs` queried each of them, and every
      open child of each map it queried, other than the root's. */
  lemma {:induction false} CrawlChildrenQueriesOpenChildren(api: MapApi, rank: MapQuery -> nat, q: MapQuery, res: MapResult, cs: seq<string>)
    requires Ranked(api, rank) && Look(api, q) == Ok(res) && cs <= res.maps
    ensures var w := CrawlChildren(api, rank, q, res, cs);
      w.hits.Ok? ==> Covers(w.queried, cs) && ClosedBelow(api, q, w.queried, q.mapId)
    decreases rank(q), 0, |cs|
  {
    if cs != [] {
      var n := |cs| - 1;
      var w0 := CrawlChildren(api, rank, q, res, cs[..n]);
      CrawlChildrenQueriesOpenChildren(api, rank, q, res, cs[..n]);
      if w0.hits.Ok? {
        var c := cs[n];
        assert c == res.maps[n];
        var qc := Child(q, c);
        var sub := Crawl(api, rank, qc);
        CrawlQueriesOpenChildren(api, rank, qc);
        if sub.hits.Ok? {
          var all := w0.queried + sub.queried;
          assert CrawlChildren(api, rank, q, res, cs).queried == all;
          ClosedJoin(api, q, c, w0.queried, sub.queried, q.mapId);
          CoversNext(w0.queried, sub.queried, cs);
        }
      }
    }
  }

  /** A failed read stops the whole walk: the error comes out, and no map after it is queried. */
  lemma {:induction false} CrawlChildrenStopsAtError(api: MapApi, rank: MapQuery -> nat, q: MapQuery, res: MapResult, cs: seq<string>, n: nat)
    requires Ranked(api, rank) && Look(api, q) == Ok(res) && cs <= res.maps && n <= |cs|
    requires CrawlChildren(api, rank, q, res, cs[..n]).hits.Err?
    ensures CrawlChildren(api, rank, q, res, cs) == CrawlChildren(api, rank, q, res, cs[..n])
    decreases |cs|
  {
    if n < |cs| {
      assert cs[..|cs| - 1][..n] == cs[..n];
      CrawlChildrenStopsAtError(api, rank, q, res, cs[..|cs| - 1], n);
    } else {
      assert cs[..n] == cs;
    }
  }

  /** One more open child: its walk is appended to the walk of the children before it. */
  lemma CrawlChildrenNext(api: MapApi, rank: MapQuery -> nat, q: MapQuery, res: MapResult, i: nat)
    requires Ranked(api, rank) && Look(api, q) == Ok(res) && i < |res.maps|
    requires CrawlChildren(api, rank, q, res, res.maps[..i]).hits.Ok?
    ensures var w := CrawlChildren(api, rank, q, res, res.maps[..i]);
      var sub := Crawl(api, rank, Child(q, res.maps[i]));
      var next := CrawlChildren(api, rank, q, res, res.maps[..i + 1]);
      next.queried == w.queried + sub.queried &&
      next.hits == if sub.hits.Err? then sub.hits else Ok(w.hits.value + sub.hits.value)
  {
    var cs := res.maps[..i + 1];
    assert cs[..|cs| - 1] == res.maps[..i] && cs[|cs| - 1] == res.maps[i];
  }

  // ---------------------------------------------------------------------------
  // The imperative walk.

  /** `checkMapRecursive`: push the map's own hits, then, for each open child
      in order, the hits of its recursive walk. */
  method CheckMapRecursive(api: MapApi, rank: MapQuery -> nat, q: MapQuery) returns (hits: Result<seq<Hit>>, queried: seq<string>)
    requires Ranked(api, rank)
    ensures Walk(hits, queried) == Crawl(api, rank, q)
    decreases rank(q)
  {
    var result := Look(api, q);
    queried := [q.mapId];
    if result.Err? {
      return Err(result.error), queried;
    }
    var res := result.value;
    var campgrounds := res.campgrounds;
    for i := 0 to |res.maps|
      invariant CrawlChildren(api, rank, q, res, res.maps[..i]) == Walk(Ok(campgrounds), queried)
    {
      var sub, subQueried := CheckMapRecursive(api, rank, Child(q, res.maps[i]));
      CrawlChildrenNext(api, rank, q, res, i);
      queried := queried + subQueried;
      if sub.Err? {
        CrawlChildrenStopsAtError(api, rank, q, res, res.maps, i + 1);
        return sub, queried;
      }
      campgrounds := campgrounds + sub.value;
    }
    assert res.maps[..|res.maps|] == res.maps;
    hits := Ok(campgrounds);
  }

  /** The tree root → {A, B}, A → {C}: A's flag is 0 and B's is not, and only
      site 7 of C is open; every other map has an empty body. */
  function ExampleApi(): MapApi {
    (q: MapQuery) =>
      if q.mapId == "root" then Ok(MapAvailability(Some([]), Some([("A", [0]), ("B", [1])])))
      else if q.mapId == "A" then Ok(MapAvailability(None, Some([("C", [0])])))
      else if q.mapId == "C" then Ok(MapAvailability(Some([("7", [ResourceAvailability(0)])]), None))
      else Ok(MapAvailability(None, None))
  }

  function ExampleRank(q: MapQuery): nat {
    if q.mapId == "root" then 2 else if q.mapId == "A" then 1 else 0
  }

  lemma ExampleMaps(q: MapQuery)
    ensures Look(ExampleApi(), q) == Ok(MapResult(q.mapId,
      if q.mapId == "C" then [Hit("C", "7")] else [],
      if q.mapId == "root" then ["A"] else if q.mapId == "A" then ["C"] else []))
  {
    var rootLinks: seq<(string, seq<int>)> := [("A", [0]), ("B", [1])];
    var aLinks: seq<(string, seq<int>)> := [("C", [0])];
    var cSites: seq<(string, seq<ResourceAvailability>)> := [("7", [ResourceAvailability(0)])];
    if q.mapId == "root" {
      assert rootLinks[1..][1..] == [];
      assert OpenLinks(rootLinks) == ["A"];
    } else if q.mapId == "A" {
      assert aLinks[1..] == [];
      assert ExampleApi()(q) == Ok(MapAvailability(None, Some(aLinks)));
      assert OpenLinks(aLinks) == ["C"] + [];
      assert OpenLinks(aLinks) == ["C"];
      var none: Option<seq<(string, seq<ResourceAvailability>)>> := None;
      assert OpenSites("A", none.GetOr([])) == Ok([]);
    } else if q.mapId == "C" {
      assert cSites[1..] == [];
      assert OpenSites("C", cSites[1..]) == Ok([]);
      assert OpenSites("C", cSites) == Ok([Hit("C", "7")] + []);
      assert [Hit("C", "7")] + [] == [Hit("C", "7")];
    }
  }

  lemma ExampleRanked()
    ensures Ranked(ExampleApi(), ExampleRank)
  {
    forall q, c | Look(ExampleApi(), q).Ok? && c in Look(ExampleApi(), q).value.maps
      ensures ExampleRank(Child(q, c)) < ExampleRank(q)
    {
      ExampleMaps(q);
    }
  }

  /** The walks of C, then of A, on that tree. */
  lemma ExampleWalkOfC(c: MapQuery)
    requires c.mapId == "C"
    ensures Ranked(ExampleApi(), ExampleRank)
    ensures Crawl(ExampleApi(), ExampleRank, c) == Walk(Ok([Hit("C", "7")]), ["C"])
  {
    ExampleRanked();
    ExampleMaps(c);
    assert Crawl(ExampleApi(), ExampleRank, c)
        == CrawlChildren(ExampleApi(), ExampleRank, c, MapResult("C", [Hit("C", "7")], []), []);
  }

  lemma ExampleWalkOfA(a: MapQuery)
    requires a.mapId == "A"
    ensures Ranked(ExampleApi(), ExampleRank)
    ensures Crawl(ExampleApi(), ExampleRank, a) == Walk(Ok([Hit("C", "7")]), ["A", "C"])
  {
    ExampleRanked();
    ExampleMaps(a);
    var res := MapResult("A", [], ["C"]);
    ExampleWalkOfC(Child(a, "C"));
    assert ["C"][..0] == [];
    assert CrawlChildren(ExampleApi(), ExampleRank, a, res, []) == Walk(Ok([]), ["A"]);
    assert [] + [Hit("C", "7")] == [Hit("C", "7")] && ["A"] + ["C"] == ["A", "C"];
    assert Crawl(ExampleApi(), ExampleRank, a) == CrawlChildren(ExampleApi(), ExampleRank, a, res, ["C"]);
  }

  /** On that tree the walk reads root, A and C, never B, and finds exactly site 7 of C. */
  lemma SkipsClosedChild(baseUrl: string, startDate: string, endDate: string)
    ensures Ranked(ExampleApi(), ExampleRank)
    ensures Crawl(ExampleApi(), ExampleRank, MapQuery(baseUrl, "root", startDate, endDate))
         == Walk(Ok([Hit("C", "7")]), ["root", "A", "C"])
  {
    ExampleRanked();
    var root := MapQuery(baseUrl, "root", startDate, endDate);
    ExampleMaps(root);
    var res := MapResult("root", [], ["A"]);
    ExampleWalkOfA(Child(root, "A"));
    assert ["A"][..0] == [];
    assert CrawlChildren(ExampleApi(), ExampleRank, root, res, []) == Walk(Ok([]), ["root"]);
    assert [] + [Hit("C", "7")] == [Hit("C", "7")] && ["root"] + ["A", "C"] == ["root", "A", "C"];
    assert Crawl(ExampleApi(), ExampleRank, root) == CrawlChildren(ExampleApi(), ExampleRank, root, res, ["A"]);
  }
}

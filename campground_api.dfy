/** The pure parts of campground-scanner.js: the base-URL table, the
    English-name lookup over resource locations, and the reading of one
    map-availability response.

    Parsed JSON objects are association lists in the order `Object.keys`
    and `Object.entries` enumerate them; their keys are distinct, as
    `JSON.parse` makes them. A property that may be absent is an `Option`. */
module CampgroundApi {
  import opened Common

  const CanadaBaseUrl: string := "https://reservation.pc.gc.ca/"
  const BcBaseUrl: string := "https://camping.bcparks.ca/"

  /** The two query-parameter profiles: the Parks Canada one and the BC Parks one. */
  datatype Profile = CanadaProfile | BcProfile

  /** `resolveBaseUrl`: the configured key of a search to its reservation site. */
  function ResolveBaseUrl(key: string): (r: Result<string>)
    ensures r.Ok? <==> key == "canada" || key == "bc"
    ensures key == "canada" ==> r == Ok(CanadaBaseUrl)
    ensures key == "bc" ==> r == Ok(BcBaseUrl)
    ensures r.Err? ==> r.error == UnknownBaseUrl(key)
  {
    if key == "canada" then Ok(CanadaBaseUrl)
    else if key == "bc" then Ok(BcBaseUrl)
    else Err(UnknownBaseUrl(key))
  }

  /** `baseUrl == canadaBaseUrl ? canada… : bc…`: every other base URL gets the BC profile. */
  function ProfileOf(baseUrl: string): (p: Profile)
    ensures p == CanadaProfile <==> baseUrl == CanadaBaseUrl
  {
    if baseUrl == CanadaBaseUrl then CanadaProfile else BcProfile
  }

  /** A resolved base URL selects the profile of the key it was resolved from. */
  lemma ResolvedProfile(key: string)
    requires ResolveBaseUrl(key).Ok?
    ensures ProfileOf(ResolveBaseUrl(key).value) == if key == "canada" then CanadaProfile else BcProfile
  {
    assert CanadaBaseUrl[8] != BcBaseUrl[8];
  }

  // ---------------------------------------------------------------------------
  // Resource locations.

  datatype LocalizedValue = LocalizedValue(cultureName: string, fullName: Option<string>, shortName: Option<string>)

  datatype Location = Location(resourceLocationId: Option<int>, localizedValues: Option<seq<LocalizedValue>>)

  /** `l.cultureName.startsWith('en')` */
  predicate IsEnglish(l: LocalizedValue) {
    "en" <= l.cultureName
  }

  /** `loc.localizedValues?.find(l => l.cultureName.startsWith('en'))` */
  function English(values: seq<LocalizedValue>): (r: Option<LocalizedValue>)
    ensures r.None? <==> forall i :: 0 <= i < |values| ==> !IsEnglish(values[i])
    ensures r.Some? ==> exists i :: 0 <= i < |values| && values[i] == r.value && IsEnglish(values[i]) &&
                          forall j :: 0 <= j < i ==> !IsEnglish(values[j])
  {
    if values == [] then None
    else if IsEnglish(values[0]) then Some(values[0])
    else
      var r := English(values[1..]);
      assert forall i :: 1 <= i < |values| ==> values[i] == values[1..][i - 1];
      r
  }

  /** `name?.toLowerCase().includes(lower)` */
  predicate NameContains(name: Option<string>, lower: string) {
    name.Some? && Includes(Lower(name.value), lower)
  }

  /** The test `findResourceLocation` applies to one location, given the lower-cased search name. */
  predicate LocationMatches(loc: Location, lower: string) {
    loc.localizedValues.Some? &&
    var en := English(loc.localizedValues.value);
    en.Some? && (NameContains(en.value.fullName, lower) || NameContains(en.value.shortName, lower))
  }

  /** Location `i` is the first one that matches. */
  ghost predicate FirstMatchAt(locations: seq<Location>, lower: string, i: int) {
    0 <= i < |locations| && LocationMatches(locations[i], lower) &&
    forall j :: 0 <= j < i ==> !LocationMatches(locations[j], lower)
  }

  /** The index of the location `locations.find(...)` returns. */
  function FirstMatchIndex(locations: seq<Location>, lower: string): (r: Option<nat>)
    ensures r.None? <==> forall i :: 0 <= i < |locations| ==> !LocationMatches(locations[i], lower)
    ensures r.Some? ==> FirstMatchAt(locations, lower, r.value)
  {
    if locations == [] then None
    else if LocationMatches(locations[0], lower) then Some(0)
    else
      var r := FirstMatchIndex(locations[1..], lower);
      assert forall i :: 1 <= i < |locations| ==> locations[i] == locations[1..][i - 1];
      if r.None? then None else Some(r.value + 1)
  }

  /** `findResourceLocation`: no search name, or an empty one, finds nothing;
      otherwise the first location whose English full or short name contains
      the search name, ignoring case (`locations.find(...) || null`). */
  function FindResourceLocation(locations: seq<Location>, searchName: Option<string>): (r: Option<Location>)
    ensures searchName.None? || searchName.value == "" ==> r.None?
    ensures searchName.Some? && searchName.value != "" ==>
      (r.None? <==> forall i :: 0 <= i < |locations| ==> !LocationMatches(locations[i], Lower(searchName.value)))
    ensures r.Some? ==> exists i :: FirstMatchAt(locations, Lower(searchName.value), i) && locations[i] == r.value
  {
    if searchName.None? || searchName.value == "" then None
    else match FirstMatchIndex(locations, Lower(searchName.value))
      case None => None
      case Some(i) => Some(locations[i])
  }

  /** The lookup ignores the case of the search name. */
  lemma FindIgnoresCase(locations: seq<Location>, name: string)
    ensures FindResourceLocation(locations, Some(Lower(name))) == FindResourceLocation(locations, Some(name))
  {
    LowerIdempotent(name);
  }

  /** `location?.resourceLocationId || ''`: no location, no id, or the id 0 all give the empty parameter. */
  function BookingLocationId(location: Option<Location>): (r: Option<int>)
    ensures r.Some? <==> location.Some? && location.value.resourceLocationId.Some? && location.value.resourceLocationId.value != 0
    ensures r.Some? ==> r == location.value.resourceLocationId
  {
    match location
    case None => None
    case Some(loc) => if loc.resourceLocationId == Some(0) then None else loc.resourceLocationId
  }

  // ---------------------------------------------------------------------------
  // One map-availability response.

  datatype ResourceAvailability = ResourceAvailability(availability: int)

  /** The two properties of the response's body the scanner reads: per-site
      availability lists and per-child-map availability flags. */
  datatype MapAvailability = MapAvailability(
    resourceAvailabilities: Option<seq<(string, seq<ResourceAvailability>)>>,
    mapLinkAvailabilities: Option<seq<(string, seq<int>)>>)

  /** The query of the availability endpoint: a base URL (which selects the
      parameter profile), a map id and a date range. */
  datatype MapQuery = MapQuery(baseUrl: string, mapId: string, startDate: string, endDate: string)

  /** An available site: `[mapId, siteId]`. */
  datatype Hit = Hit(mapId: string, siteId: string)

  /** What `checkAvailability` resolves to. */
  datatype MapResult = MapResult(mapId: string, campgrounds: seq<Hit>, maps: seq<string>)

  /** Site entry `i` has an availability list whose first record is 0. */
  ghost predicate OpenAt(entries: seq<(string, seq<ResourceAvailability>)>, i: int) {
    0 <= i < |entries| && |entries[i].1| > 0 && entries[i].1[0].availability == 0
  }

  /** `Object.entries(campgrounds).filter(m => m[1][0].availability == 0).map(m => [mapId, m[0]])`:
      reading the first record of an empty list throws. */
  function OpenSites(mapId: string, entries: seq<(string, seq<ResourceAvailability>)>): (r: Result<seq<Hit>>)
    ensures r.Err? ==> r.error == CannotRead("availability")
    ensures r.Ok? ==> |r.value| <= |entries| && forall k :: 0 <= k < |r.value| ==> r.value[k].mapId == mapId
  {
    if entries == [] then Ok([])
    else if entries[0].1 == [] then Err(CannotRead("availability"))
    else
      match OpenSites(mapId, entries[1..])
      case Err(e) => Err(e)
      case Ok(hs) => Ok((if entries[0].1[0].availability == 0 then [Hit(mapId, entries[0].0)] else []) + hs)
  }

  /** The filter fails exactly when some site has no availability record,
      and otherwise keeps exactly the sites whose first record is 0. */
  lemma {:induction false} OpenSitesMeaning(mapId: string, entries: seq<(string, seq<ResourceAvailability>)>)
    ensures OpenSites(mapId, entries).Err? <==> exists i :: 0 <= i < |entries| && entries[i].1 == []
    ensures OpenSites(mapId, entries).Ok? ==> forall h :: h in OpenSites(mapId, entries).value <==>
      h.mapId == mapId && exists i :: OpenAt(entries, i) && entries[i].0 == h.siteId
  {
    if entries != [] {
      var rest := entries[1..];
      OpenSitesMeaning(mapId, rest);
      assert forall i :: 1 <= i < |entries| ==> entries[i] == rest[i - 1];
      assert forall i :: OpenAt(rest, i) ==> OpenAt(entries, i + 1);
      assert forall i :: 1 <= i && OpenAt(entries, i) ==> OpenAt(rest, i - 1);
      if entries[0].1 != [] && OpenSites(mapId, rest).Err? {
        var i :| 0 <= i < |rest| && rest[i].1 == [];
        assert entries[i + 1].1 == [];
      }
    }
  }

  /** The filter keeps the order of the entries. */
  lemma {:induction false} OpenSitesAppend(mapId: string, a: seq<(string, seq<ResourceAvailability>)>,
                                           b: seq<(string, seq<ResourceAvailability>)>)
    requires OpenSites(mapId, a).Ok? && OpenSites(mapId, b).Ok?
    ensures OpenSites(mapId, a + b) == Ok(OpenSites(mapId, a).value + OpenSites(mapId, b).value)
    decreases |a|
  {
    if a == [] {
      assert a + b == b;
      assert OpenSites(mapId, a).value == [];
      assert OpenSites(mapId, a).value + OpenSites(mapId, b).value == OpenSites(mapId, b).value;
      assert OpenSites(mapId, a + b) == OpenSites(mapId, b);
    } else {
      assert (a + b)[0] == a[0];
      assert (a + b)[1..] == a[1..] + b;
      OpenSitesAppend(mapId, a[1..], b);
      var head := if a[0].1[0].availability == 0 then [Hit(mapId, a[0].0)] else [];
      assert OpenSites(mapId, a).value == head + OpenSites(mapId, a[1..]).value;
      assert OpenSites(mapId, a + b) == Ok(head + OpenSites(mapId, a[1..] + b).value);
      assert head + (OpenSites(mapId, a[1..]).value + OpenSites(mapId, b).value)
          == (head + OpenSites(mapId, a[1..]).value) + OpenSites(mapId, b).value;
    }
  }

  /** Child link `i` has a first flag of 0. */
  ghost predicate LinkOpenAt(links: seq<(string, seq<int>)>, i: int) {
    0 <= i < |links| && |links[i].1| > 0 && links[i].1[0] == 0
  }

  /** `Object.keys(maps).filter(m => maps[m][0] == 0)`: an empty flag list reads
      `undefined`, which is not 0, so that link is dropped. */
  function OpenLinks(links: seq<(string, seq<int>)>): (r: seq<string>)
    ensures |r| <= |links|
    ensures forall m :: m in r <==> exists i :: LinkOpenAt(links, i) && links[i].0 == m
  {
    if links == [] then []
    else
      var rest := OpenLinks(links[1..]);
      assert forall i :: 1 <= i < |links| ==> links[i] == links[1..][i - 1];
      assert forall i :: LinkOpenAt(links[1..], i) ==> LinkOpenAt(links, i + 1);
      assert forall i :: 1 <= i && LinkOpenAt(links, i) ==> LinkOpenAt(links[1..], i - 1);
      (if |links[0].1| > 0 && links[0].1[0] == 0 then [links[0].0] else []) + rest
  }

  /** The child filter keeps the order of the links. */
  lemma {:induction false} OpenLinksAppend(a: seq<(string, seq<int>)>, b: seq<(string, seq<int>)>)
    ensures OpenLinks(a + b) == OpenLinks(a) + OpenLinks(b)
    decreases |a|
  {
    if a == [] {
      assert a + b == b;
    } else {
      assert (a + b)[0] == a[0];
      assert (a + b)[1..] == a[1..] + b;
      OpenLinksAppend(a[1..], b);
    }
  }

  /** `checkAvailability` once the response is parsed: both properties
      default to `{}` when absent. */
  function CheckAvailability(mapId: string, data: MapAvailability): (r: Result<MapResult>)
    ensures r.Err? <==> OpenSites(mapId, data.resourceAvailabilities.GetOr([])).Err?
    ensures r.Err? ==> r.error == CannotRead("availability")
    ensures r.Ok? ==> r.value.mapId == mapId && (forall h :: h in r.value.campgrounds ==> h.mapId == mapId)
    ensures r.Ok? ==> r.value.campgrounds == OpenSites(mapId, data.resourceAvailabilities.GetOr([])).value
    ensures r.Ok? ==> r.value.maps == OpenLinks(data.mapLinkAvailabilities.GetOr([]))
    ensures data.resourceAvailabilities.None? ==> r.Ok? && r.value.campgrounds == []
    ensures data.mapLinkAvailabilities.None? && r.Ok? ==> r.value.maps == []
  {
    match OpenSites(mapId, data.resourceAvailabilities.GetOr([]))
    case Err(e) => Err(e)
    case Ok(campgrounds) => Ok(MapResult(mapId, campgrounds, OpenLinks(data.mapLinkAvailabilities.GetOr([]))))
  }

  /** The value of `key` in an association list. */
  function Lookup<V>(entries: seq<(string, V)>, key: string): (r: Option<V>)
    ensures r.None? <==> forall i :: 0 <= i < |entries| ==> entries[i].0 != key
    ensures r.Some? ==> exists i :: 0 <= i < |entries| && entries[i] == (key, r.value)
  {
    if entries == [] then None
    else if entries[0].0 == key then Some(entries[0].1)
    else
      var r := Lookup(entries[1..], key);
      assert forall i :: 1 <= i < |entries| ==> entries[i] == entries[1..][i - 1];
      r
  }

  /** `data.resourceAvailabilities[siteId][0].availability`, with the
      TypeError of each missing step: no `resourceAvailabilities`, no entry for
      the site, an empty availability list. */
  function SiteAvailability(data: MapAvailability, siteKey: string): (r: Result<int>)
    ensures data.resourceAvailabilities.None? ==> r == Err(CannotRead(siteKey))
    ensures data.resourceAvailabilities.Some? ==>
      match Lookup(data.resourceAvailabilities.value, siteKey)
      case None => r == Err(CannotRead("0"))
      case Some(avs) => r == if avs == [] then Err(CannotRead("availability")) else Ok(avs[0].availability)
  {
    match data.resourceAvailabilities
    case None => Err(CannotRead(siteKey))
    case Some(entries) =>
      match Lookup(entries, siteKey)
      case None => Err(CannotRead("0"))
      case Some(avs) => if avs == [] then Err(CannotRead("availability")) else Ok(avs[0].availability)
  }

  /** No key occurs twice, as in every object `JSON.parse` builds. */
  ghost predicate DistinctKeys<V>(entries: seq<(string, V)>) {
    forall i, j :: 0 <= i < j < |entries| ==> entries[i].0 != entries[j].0
  }

  /** The site check and the crawl agree: a listed site is open to the site
      check exactly when the crawl of that map lists it as a hit. */
  lemma SiteCheckAgreesWithCrawl(mapId: string, data: MapAvailability, siteKey: string)
    requires data.resourceAvailabilities.Some? && DistinctKeys(data.resourceAvailabilities.value)
    requires CheckAvailability(mapId, data).Ok?
    ensures SiteAvailability(data, siteKey) == Ok(0) <==> Hit(mapId, siteKey) in CheckAvailability(mapId, data).value.campgrounds
  {
    var entries := data.resourceAvailabilities.value;
    var hits := CheckAvailability(mapId, data).value.campgrounds;
    OpenSitesMeaning(mapId, entries);
    if SiteAvailability(data, siteKey) == Ok(0) {
      var i :| 0 <= i < |entries| && entries[i] == (siteKey, Lookup(entries, siteKey).value);
      assert OpenAt(entries, i);
    }
    if Hit(mapId, siteKey) in hits {
      var i :| OpenAt(entries, i) && entries[i].0 == siteKey;
      var j :| 0 <= j < |entries| && entries[j] == (siteKey, Lookup(entries, siteKey).value);
      assert i == j;
    }
  }
}

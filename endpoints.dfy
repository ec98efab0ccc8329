/** The two API routes of backend/server.py that compute something from the
    catalogue: the per-protocol platform counts of `/api/cast-support` and
    the key check of `/api/platforms/{platform_key}`. */
module Endpoints {
  import opened Common
  import opened Catalogue
  import opened Availability
  import opened Enhance
  import opened MockSearch

  /** The keys of the platforms that support protocol `p`. */
  function SupportingKeys(cat: Catalogue, p: Protocol): set<string> {
    set k | k in cat && cat[k].castSupport.Supports(p)
  }

  /** The `casting_capabilities` object. */
  datatype CastStats = CastStats(chromecast: nat, airplay: nat, dlna: nat, totalPlatforms: nat) {
    function Count(p: Protocol): nat {
      match p
      case Chromecast => chromecast
      case AirPlay => airplay
      case Dlna => dlna
    }

    /** `cast_stats[p] += 1`. */
    function Bump(p: Protocol): (s: CastStats)
      ensures s.Count(p) == Count(p) + 1
      ensures forall q :: q != p ==> s.Count(q) == Count(q)
      ensures s.totalPlatforms == totalPlatforms
    {
      match p
      case Chromecast => this.(chromecast := chromecast + 1)
      case AirPlay => this.(airplay := airplay + 1)
      case Dlna => this.(dlna := dlna + 1)
    }
  }

  /** `get_cast_support`: one counter per protocol, raised once for every
      platform whose flag for it is on. */
  method GetCastSupportStats(cat: Catalogue) returns (stats: CastStats)
    ensures forall p :: stats.Count(p) == |SupportingKeys(cat, p)|
    ensures stats.totalPlatforms == |cat|
  {
    stats := CastStats(0, 0, 0, |cat|);
    var remaining := cat.Keys;
    forall p | true
      ensures stats.Count(p) == |SupportingKeys(cat, p) - remaining|
    {
      assert SupportingKeys(cat, p) - remaining == {};
    }
    while remaining != {}
      invariant remaining <= cat.Keys
      invariant stats.totalPlatforms == |cat|
      invariant forall p :: stats.Count(p) == |SupportingKeys(cat, p) - remaining|
      decreases |remaining|
    {
      var k :| k in remaining;
      stats := CountPlatform(stats, cat[k].castSupport);
      forall p | true
        ensures stats.Count(p) == |SupportingKeys(cat, p) - (remaining - {k})|
      {
        CountStep(cat, p, remaining, k);
      }
      remaining := remaining - {k};
    }
  }

  /** The inner loop of `get_cast_support`: every flag of one platform that
      is on raises its protocol's counter. */
  method CountPlatform(stats: CastStats, granted: CastSupport) returns (next: CastStats)
    ensures forall p :: next.Count(p) == stats.Count(p) + (if granted.Supports(p) then 1 else 0)
    ensures next.totalPlatforms == stats.totalPlatforms
  {
    next := stats;
    for j := 0 to |Protocols|
      invariant next.totalPlatforms == stats.totalPlatforms
      invariant forall p ::
        next.Count(p) == stats.Count(p) + (if p in Protocols[..j] && granted.Supports(p) then 1 else 0)
    {
      if granted.Supports(Protocols[j]) {
        next := next.Bump(Protocols[j]);
      }
    }
    assert Protocols[..|Protocols|] == Protocols;
  }

  /** Taking `k` out of the unvisited keys adds it to the visited supporters
      exactly when it supports `p`. */
  lemma CountStep(cat: Catalogue, p: Protocol, remaining: set<string>, k: string)
    requires k in remaining && remaining <= cat.Keys
    ensures |SupportingKeys(cat, p) - (remaining - {k})| ==
      |SupportingKeys(cat, p) - remaining| + (if cat[k].castSupport.Supports(p) then 1 else 0)
  {
    var s := SupportingKeys(cat, p);
    if cat[k].castSupport.Supports(p) {
      assert s - (remaining - {k}) == (s - remaining) + {k};
    } else {
      assert s - (remaining - {k}) == s - remaining;
    }
  }

  /** No protocol is supported by more platforms than the catalogue has. */
  lemma {:induction false} CountsBounded(cat: Catalogue, p: Protocol)
    ensures |SupportingKeys(cat, p)| <= |cat|
  {
    SubsetCardinality(SupportingKeys(cat, p), cat.Keys);
  }

  /** An HTTP error answer. */
  datatype HttpError = HttpError(status: int, detail: string)

  /** `get_platform_content`: 404 for a key the catalogue lacks, otherwise a
      search for "popular" filtered to that platform. */
  method GetPlatformContent(cat: Catalogue, platformKey: string, contentType: string, page: int,
                            tmdb: Option<TmdbPage>)
    returns (r: Result<SearchResponse, HttpError>)
    ensures r.Err? <==> platformKey !in cat
    ensures r.Err? ==> r.error == HttpError(404, "Platform not found")
    ensures r.Ok? && (tmdb.None? || AnyFails(cat, tmdb.value.results, Some(platformKey))) ==>
      MockSearchResult(cat, page, contentType, Some(platformKey), r.value)
    ensures r.Ok? && tmdb.Some? && !AnyFails(cat, tmdb.value.results, Some(platformKey)) ==>
      LiveSearchResult(cat, tmdb.value, contentType, Some(platformKey), r.value)
  {
    if platformKey !in cat {
      return Err(HttpError(404, "Platform not found"));
    }
    var response := SearchContent(cat, page, contentType, Some(platformKey), tmdb);
    r := Ok(response);
  }

  /** A canned platform page lists no platform but the requested one. */
  lemma {:induction false} MockPlatformPageIsSinglePlatform(cat: Catalogue, key: string, page: int, contentType: string,
                                                            response: SearchResponse, i: nat, j: nat)
    requires key in cat && key != ""
    requires MockSearchResult(cat, page, contentType, Some(key), response)
    requires i < |response.results| && j < |response.results[i].platforms|
    ensures response.results[i].platforms[j].platform == key
    ensures response.results[i].platforms[j].url ==
      cat[key].baseUrl + "/" + response.results[i].contentType + "/" + IntToString(response.results[i].id)
  {
    var item := MockSelection(contentType)[i];
    assert MockShaped(cat, Some(key), item, response.results[i]);
  }

  /** The live search does not keep to the filter when the filtered platform
      lacks the item's type: the item is kept with two or more other
      platforms, none of them the one asked for. */
  lemma {:induction false} LiveFilterMissListsOtherPlatforms(cat: Catalogue, item: RawItem, key: string, c: ContentResult)
    requires key in cat && key != ""
    requires InferContentType(item) !in cat[key].contentTypes
    requires |EligibleKeys(cat, InferContentType(item))| >= 2
    requires EnhancedFrom(cat, item, Some(key), c)
    ensures |c.platforms| >= 2
    ensures forall j :: 0 <= j < |c.platforms| ==> c.platforms[j].platform != key
  {
    assert !FilterHit(cat, InferContentType(item), Some(key));
    forall j | 0 <= j < |c.platforms|
      ensures c.platforms[j].platform != key
    {
      assert LinkFor(cat, InferContentType(item), item.id, LiveQualities, c.platforms[j]);
    }
  }
}

/** Platform links for one content item and the casting support they add up
    to (`_get_platform_availability` and `_get_cast_support` of
    backend/server.py). The random picks of the source are nondeterministic
    choices here: which platforms and which quality label are chosen is left
    open, only the bounds and the distinctness the code guarantees are
    stated. */
module Availability {
  import opened Common
  import opened Catalogue

  /** One entry of an item's `platforms` list. */
  datatype PlatformLink = PlatformLink(
    platform: string,
    name: string,
    url: string,
    quality: string,
    cost: string,
    description: string,
    castSupport: CastSupport)

  /** `random.randint(2, n)` with n < 2 raises ValueError in Python. */
  datatype AvailabilityError = EmptyRandomRange

  /** The quality labels `random.choice` draws from for a live search. */
  const LiveQualities: set<string> := {"HD", "Full HD", "4K"}

  /** The link the source builds for platform `key` and one content item. */
  function MakeLink(key: string, info: PlatformInfo, contentType: string, contentId: int, quality: string): PlatformLink {
    PlatformLink(key, info.name, info.baseUrl + "/" + contentType + "/" + IntToString(contentId),
                 quality, "Free", info.description, info.castSupport)
  }

  /** `l` is a link the catalogue allows for this item: its platform carries
      the content type and every field comes from that platform's entry. */
  predicate LinkFor(cat: Catalogue, contentType: string, contentId: int, qualities: set<string>, l: PlatformLink) {
    && l.platform in cat
    && contentType in cat[l.platform].contentTypes
    && l.quality in qualities
    && l == MakeLink(l.platform, cat[l.platform], contentType, contentId, l.quality)
  }

  predicate DistinctPlatforms(links: seq<PlatformLink>) {
    forall i, j :: 0 <= i < j < |links| ==> links[i].platform != links[j].platform
  }

  /** The platform filter names an eligible platform: the single-platform
      rule applies. */
  predicate FilterHit(cat: Catalogue, contentType: string, filter: Option<string>) {
    Truthy(filter) && filter.value in EligibleKeys(cat, contentType)
  }

  /** The source raises: no filter hit and exactly one eligible platform. */
  predicate AvailabilityFails(cat: Catalogue, contentType: string, filter: Option<string>) {
    !FilterHit(cat, contentType, filter) && |EligibleKeys(cat, contentType)| == 1
  }

  // ---------------------------------------------------------------------
  // Casting support
  // ---------------------------------------------------------------------

  /** The catalogue entry of `key` exists and supports protocol `p`. */
  predicate Grants(cat: Catalogue, key: string, p: Protocol) {
    key in cat && cat[key].castSupport.Supports(p)
  }

  /** Some listed platform known to the catalogue supports `p`. */
  predicate AnyGrants(cat: Catalogue, links: seq<PlatformLink>, p: Protocol) {
    exists i :: 0 <= i < |links| && Grants(cat, links[i].platform, p)
  }

  /** The aggregated support record: a flag is on exactly when some listed,
      known platform has it on. */
  function CastSupportOf(cat: Catalogue, links: seq<PlatformLink>): CastSupport {
    CastSupport(AnyGrants(cat, links, Chromecast), AnyGrants(cat, links, AirPlay), AnyGrants(cat, links, Dlna))
  }

  /** `_get_cast_support`: start with every flag off, then for each listed
      platform found in the catalogue switch on each flag it supports. */
  method GetCastSupport(cat: Catalogue, links: seq<PlatformLink>) returns (support: CastSupport)
    ensures forall p :: support.Supports(p) <==> AnyGrants(cat, links, p)
    ensures support == CastSupportOf(cat, links)
  {
    support := NoCastSupport;
    for i := 0 to |links|
      invariant forall p :: support.Supports(p) <==> AnyGrants(cat, links[..i], p)
    {
      var key := links[i].platform;
      if key in cat {
        var granted := cat[key].castSupport;
        for j := 0 to |Protocols|
          invariant forall p :: support.Supports(p) <==>
            (AnyGrants(cat, links[..i], p) || (p in Protocols[..j] && granted.Supports(p)))
        {
          if granted.Supports(Protocols[j]) {
            support := support.Grant(Protocols[j]);
          }
        }
        assert Protocols[..|Protocols|] == Protocols;
        assert forall p :: p in Protocols;
      }
      AnyGrantsExtend(cat, links, i);
    }
    assert links[..|links|] == links;
  }

  /** Growing the prefix by one link adds exactly what that link grants. */
  lemma AnyGrantsExtend(cat: Catalogue, links: seq<PlatformLink>, i: nat)
    requires i < |links|
    ensures forall p :: AnyGrants(cat, links[..i + 1], p) <==>
      (AnyGrants(cat, links[..i], p) || Grants(cat, links[i].platform, p))
  {
    forall p | AnyGrants(cat, links[..i + 1], p)
      ensures AnyGrants(cat, links[..i], p) || Grants(cat, links[i].platform, p)
    {
      var w :| 0 <= w < i + 1 && Grants(cat, links[..i + 1][w].platform, p);
      if w < i {
        assert links[..i][w] == links[..i + 1][w];
      }
    }
    forall p | AnyGrants(cat, links[..i], p)
      ensures AnyGrants(cat, links[..i + 1], p)
    {
      var w :| 0 <= w < i && Grants(cat, links[..i][w].platform, p);
      assert links[..i + 1][w] == links[..i][w];
    }
    forall p | Grants(cat, links[i].platform, p)
      ensures AnyGrants(cat, links[..i + 1], p)
    {
      assert links[..i + 1][i] == links[i];
    }
  }

  /** An empty platform list supports no protocol. */
  lemma NoLinksNoSupport(cat: Catalogue)
    ensures CastSupportOf(cat, []) == NoCastSupport
  {
  }

  /** A platform missing from the catalogue changes nothing. */
  lemma UnknownPlatformIgnored(cat: Catalogue, links: seq<PlatformLink>, l: PlatformLink)
    requires l.platform !in cat
    ensures CastSupportOf(cat, links + [l]) == CastSupportOf(cat, links)
  {
    forall p | AnyGrants(cat, links + [l], p)
      ensures AnyGrants(cat, links, p)
    {
      var w :| 0 <= w < |links| + 1 && Grants(cat, (links + [l])[w].platform, p);
      assert w < |links|;
      assert (links + [l])[w] == links[w];
    }
    forall p | AnyGrants(cat, links, p)
      ensures AnyGrants(cat, links + [l], p)
    {
      var w :| 0 <= w < |links| && Grants(cat, links[w].platform, p);
      assert (links + [l])[w] == links[w];
    }
  }

  // ---------------------------------------------------------------------
  // Eligible platforms and random sampling
  // ---------------------------------------------------------------------

  /** The loop that copies every platform carrying `contentType` into
      `eligible_platforms`. */
  method EligiblePlatforms(cat: Catalogue, contentType: string) returns (eligible: Catalogue)
    ensures eligible == Eligible(cat, contentType)
  {
    eligible := map[];
    var remaining := cat.Keys;
    while remaining != {}
      invariant remaining <= cat.Keys
      invariant eligible.Keys == EligibleKeys(cat, contentType) - remaining
      invariant forall k :: k in eligible ==> eligible[k] == cat[k]
      decreases |remaining|
    {
      var k :| k in remaining;
      if contentType in cat[k].contentTypes {
        eligible := eligible[k := cat[k]];
      }
      remaining := remaining - {k};
    }
  }

  /** `random.sample(keys, count)`: `count` distinct keys, each drawn from
      `keys`; which ones is left open. */
  method Sample(keys: set<string>, count: nat) returns (picked: seq<string>)
    requires count <= |keys|
    ensures |picked| == count
    ensures forall i :: 0 <= i < |picked| ==> picked[i] in keys
    ensures forall i, j :: 0 <= i < j < |picked| ==> picked[i] != picked[j]
  {
    picked := [];
    var remaining := keys;
    while |picked| < count
      invariant |picked| <= count
      invariant remaining <= keys
      invariant |remaining| == |keys| - |picked|
      invariant forall i :: 0 <= i < |picked| ==> picked[i] in keys && picked[i] !in remaining
      invariant forall i, j :: 0 <= i < j < |picked| ==> picked[i] != picked[j]
    {
      var k :| k in remaining;
      picked := picked + [k];
      remaining := remaining - {k};
    }
  }

  /** One link per picked key, each with a freely chosen quality label. */
  method LinksFor(cat: Catalogue, keys: seq<string>, contentType: string, contentId: int, qualities: set<string>)
    returns (links: seq<PlatformLink>)
    requires qualities != {}
    requires forall i :: 0 <= i < |keys| ==> keys[i] in EligibleKeys(cat, contentType)
    ensures |links| == |keys|
    ensures forall i :: 0 <= i < |links| ==> links[i].platform == keys[i]
    ensures forall i :: 0 <= i < |links| ==> LinkFor(cat, contentType, contentId, qualities, links[i])
  {
    links := [];
    for i := 0 to |keys|
      invariant |links| == i
      invariant forall m :: 0 <= m < i ==> links[m].platform == keys[m]
      invariant forall m :: 0 <= m < i ==> LinkFor(cat, contentType, contentId, qualities, links[m])
    {
      var quality :| quality in qualities;
      links := links + [MakeLink(keys[i], cat[keys[i]], contentType, contentId, quality)];
    }
  }

  /** `_get_platform_availability`. With a filter naming an eligible
      platform, the result is that platform alone; otherwise between two and
      five distinct eligible platforms are picked at random, or none when no
      platform carries the type. Exactly one eligible platform makes
      `random.randint(2, 1)` raise. */
  method GetPlatformAvailability(cat: Catalogue, contentId: int, contentType: string, filter: Option<string>)
    returns (r: Result<seq<PlatformLink>, AvailabilityError>)
    ensures r.Err? <==> AvailabilityFails(cat, contentType, filter)
    ensures r.Ok? ==> forall i :: 0 <= i < |r.value| ==> LinkFor(cat, contentType, contentId, LiveQualities, r.value[i])
    ensures r.Ok? ==> DistinctPlatforms(r.value)
    ensures FilterHit(cat, contentType, filter) ==>
      r.Ok? && |r.value| == 1 && r.value[0].platform == filter.value
    ensures !FilterHit(cat, contentType, filter) && |EligibleKeys(cat, contentType)| >= 2 ==>
      r.Ok? && 2 <= |r.value| <= Min(5, |EligibleKeys(cat, contentType)|)
    ensures |EligibleKeys(cat, contentType)| == 0 ==> r == Ok([])
  {
    var eligible := EligiblePlatforms(cat, contentType);
    if filter.Some? && filter.value != "" && filter.value in eligible {
      var quality :| quality in LiveQualities;
      r := Ok([MakeLink(filter.value, eligible[filter.value], contentType, contentId, quality)]);
    } else {
      var keys := eligible.Keys;
      if |keys| > 0 {
        if |keys| < 2 {
          return Err(EmptyRandomRange);
        }
        var most := Min(5, |keys|);
        var count: nat :| 2 <= count <= most;
        var picked := Sample(keys, count);
        var links := LinksFor(cat, picked, contentType, contentId, LiveQualities);
        r := Ok(links);
      } else {
        r := Ok([]);
      }
    }
  }

  /** A single-platform answer costs nothing and points at
      `base_url/content_type/content_id`. */
  lemma FilterHitLink(cat: Catalogue, contentType: string, contentId: int, filter: Option<string>, l: PlatformLink)
    requires FilterHit(cat, contentType, filter)
    requires LinkFor(cat, contentType, contentId, LiveQualities, l) && l.platform == filter.value
    ensures l.cost == "Free"
    ensures l.url == cat[filter.value].baseUrl + "/" + contentType + "/" + IntToString(contentId)
    ensures l.name == cat[filter.value].name
  {
  }
}

/** The canned search answer of backend/server.py (`_mock_search_response`),
    used when no TMDB key is configured or the live search raises, and the
    entry point `search_content` that chooses between the two. */
module MockSearch {
  import opened Common
  import opened Catalogue
  import opened Availability
  import opened Enhance

  /** The quality labels the canned answer draws from. */
  const MockQualities: set<string> := {"HD", "Full HD"}

  /** The four canned titles, before platforms are attached. Vote averages
      are in tenths. */
  const MockContent: seq<ContentResult> := [
    ContentResult(
      603, Some("The Matrix"), "A computer programmer discovers reality is a simulation.",
      Some("https://image.tmdb.org/t/p/w500/f89U3ADr1oiB1s9GkdPOEpXUk5H.jpg"),
      Some("https://image.tmdb.org/t/p/w1280/fNG7i7RqMErkcqhohV2a6cV1Ehy.jpg"),
      Some("1999-03-30"), None, 87, 24000, ["Action", "Sci-Fi"], [], "movie", None, None, NoCastSupport),
    ContentResult(
      27205, Some("Inception"), "A thief enters dreams to plant ideas.",
      Some("https://image.tmdb.org/t/p/w500/9gk7adHYeDvHkCSEqAvQNLV5Uge.jpg"),
      Some("https://image.tmdb.org/t/p/w1280/s3TBrRGB1iav7gFOCNx3H31MoES.jpg"),
      Some("2010-07-15"), None, 88, 35000, ["Action", "Sci-Fi", "Thriller"], [], "movie", None, None, NoCastSupport),
    ContentResult(
      1399, Some("Game of Thrones"), "Noble families fight for the Iron Throne.",
      Some("https://image.tmdb.org/t/p/w500/7WUHnWGx5OO145IRxPDUkQSh4C7.jpg"),
      Some("https://image.tmdb.org/t/p/w1280/suopoADq0k8YZr4dQXcU6pToj6s.jpg"),
      None, Some("2011-04-17"), 92, 45000, ["Drama", "Fantasy", "Action & Adventure"], [], "tv",
      Some(8), Some(73), NoCastSupport),
    ContentResult(
      1396, Some("Breaking Bad"), "A chemistry teacher becomes a meth manufacturer.",
      Some("https://image.tmdb.org/t/p/w500/ggFHVNu6YYI5L9pCfOacjizRGt.jpg"),
      Some("https://image.tmdb.org/t/p/w1280/tsRy63Mu5cu8etL1X7ZLyf7UP1M.jpg"),
      None, Some("2008-01-20"), 95, 55000, ["Drama", "Crime", "Thriller"], [], "tv",
      Some(5), Some(62), NoCastSupport)
  ]

  /** The items of `items` whose content type is `contentType`, in order. */
  function OfType(items: seq<ContentResult>, contentType: string): (kept: seq<ContentResult>)
    ensures |kept| <= |items|
    ensures forall i :: 0 <= i < |kept| ==> kept[i].contentType == contentType
    ensures forall x :: x in kept <==> x in items && x.contentType == contentType
  {
    if items == [] then []
    else
      var rest := OfType(items[..|items| - 1], contentType);
      var last := items[|items| - 1];
      assert forall x :: x in items <==> x in items[..|items| - 1] || x == last;
      rest + (if last.contentType == contentType then [last] else [])
  }

  /** The list the canned answer starts from: "movie" and "tv" keep the
      matching titles, any other type keeps all four. */
  function MockSelection(contentType: string): seq<ContentResult> {
    if contentType == "movie" || contentType == "tv" then OfType(MockContent, contentType) else MockContent
  }

  /** The filter names a catalogue platform: the canned answer then lists
      that platform alone, or nothing. */
  predicate KnownFilter(cat: Catalogue, filter: Option<string>) {
    Truthy(filter) && filter.value in cat
  }

  /** The platform list the canned answer may attach to `item`. */
  predicate MockPlatforms(cat: Catalogue, filter: Option<string>, item: ContentResult, platforms: seq<PlatformLink>) {
    if KnownFilter(cat, filter) then
      var info := cat[filter.value];
      platforms == (if item.contentType in info.contentTypes
                    then [MakeLink(filter.value, info, item.contentType, item.id, "HD")]
                    else [])
    else
      && |platforms| == Min(4, |EligibleKeys(cat, item.contentType)|)
      && DistinctPlatforms(platforms)
      && forall i :: 0 <= i < |platforms| ==> LinkFor(cat, item.contentType, item.id, MockQualities, platforms[i])
  }

  /** `shaped` is `item` with allowed platforms and their cast support filled
      in and nothing else changed. */
  predicate MockShaped(cat: Catalogue, filter: Option<string>, item: ContentResult, shaped: ContentResult) {
    && shaped == item.(platforms := shaped.platforms, castSupport := CastSupportOf(cat, shaped.platforms))
    && MockPlatforms(cat, filter, item, shaped.platforms)
  }

  /** `response` is a canned answer to a search for `contentType` under
      `filter` on page `page`. */
  predicate MockSearchResult(cat: Catalogue, page: int, contentType: string, filter: Option<string>,
                             response: SearchResponse) {
    && |response.results| == |MockSelection(contentType)|
    && (forall i :: 0 <= i < |response.results| ==>
          MockShaped(cat, filter, MockSelection(contentType)[i], response.results[i]))
    && response.totalResults == |response.results|
    && response.page == page
    && response.totalPages == 1
    && response.contentType == Some(contentType)
    && response.platformFilter == filter
  }

  /** The platforms of one canned item. */
  method MockPlatformsFor(cat: Catalogue, filter: Option<string>, item: ContentResult)
    returns (platforms: seq<PlatformLink>)
    ensures MockPlatforms(cat, filter, item, platforms)
  {
    if filter.Some? && filter.value != "" && filter.value in cat {
      var info := cat[filter.value];
      platforms := [];
      if item.contentType in info.contentTypes {
        platforms := [MakeLink(filter.value, info, item.contentType, item.id, "HD")];
      }
    } else {
      var eligible := EligiblePlatforms(cat, item.contentType);
      var count := Min(4, |eligible.Keys|);
      var picked := Sample(eligible.Keys, count);
      platforms := LinksFor(cat, picked, item.contentType, item.id, MockQualities);
    }
  }

  /** `_mock_search_response`: narrow the canned list by type, then write
      each item's platforms and cast support in place. */
  method MockSearchResponse(cat: Catalogue, page: int, contentType: string, filter: Option<string>)
    returns (response: SearchResponse)
    ensures MockSearchResult(cat, page, contentType, filter, response)
  {
    var items := MockSelection(contentType);
    for i := 0 to |items|
      invariant |items| == |MockSelection(contentType)|
      invariant forall m :: 0 <= m < i ==> MockShaped(cat, filter, MockSelection(contentType)[m], items[m])
      invariant forall m :: i <= m < |items| ==> items[m] == MockSelection(contentType)[m]
    {
      var platforms := MockPlatformsFor(cat, filter, items[i]);
      var cast := GetCastSupport(cat, platforms);
      items := items[i := items[i].(platforms := platforms, castSupport := cast)];
    }
    response := SearchResponse(items, |items|, page, 1, Some(contentType), filter);
  }

  /** "movie" and "tv" narrow the canned list to that type, keeping every
      title of the type. */
  lemma SelectionByType(contentType: string, x: ContentResult)
    requires contentType == "movie" || contentType == "tv"
    ensures x in MockSelection(contentType) <==> x in MockContent && x.contentType == contentType
  {
  }

  /** Any other type, "multi" included, keeps the whole canned list. */
  lemma MultiKeepsAll(contentType: string)
    requires contentType != "movie" && contentType != "tv"
    ensures |MockSelection(contentType)| == 4
  {
  }

  /** Under a known filter no canned item is dropped; an item whose type the
      platform does not carry is kept with no platforms and no cast
      support. */
  lemma {:induction false} KnownFilterUnsupportedType(cat: Catalogue, filter: Option<string>,
                                                      item: ContentResult, shaped: ContentResult)
    requires KnownFilter(cat, filter) && item.contentType !in cat[filter.value].contentTypes
    requires MockShaped(cat, filter, item, shaped)
    ensures shaped.platforms == [] && shaped.castSupport == NoCastSupport
    ensures shaped.id == item.id && shaped.title == item.title
  {
    NoLinksNoSupport(cat);
  }

  /** `TMDBClient.search_content`: with no TMDB answer (no API key, or the
      request failed) the canned answer is returned, and so it is when the
      live shaping raises; otherwise the live result. */
  method SearchContent(cat: Catalogue, page: int, contentType: string, filter: Option<string>, tmdb: Option<TmdbPage>)
    returns (response: SearchResponse)
    ensures tmdb.None? ==> MockSearchResult(cat, page, contentType, filter, response)
    ensures tmdb.Some? && AnyFails(cat, tmdb.value.results, filter) ==>
      MockSearchResult(cat, page, contentType, filter, response)
    ensures tmdb.Some? && !AnyFails(cat, tmdb.value.results, filter) ==>
      LiveSearchResult(cat, tmdb.value, contentType, filter, response)
  {
    if tmdb.None? {
      response := MockSearchResponse(cat, page, contentType, filter);
      return;
    }
    var live := ShapeSearch(cat, tmdb.value, contentType, filter);
    if live.Err? {
      response := MockSearchResponse(cat, page, contentType, filter);
    } else {
      response := live.value;
    }
  }
}

/** Shaping of TMDB items into the backend's content results
    (`_enhance_content_data` and the result loops of `search_content` and
    `get_trending_content` in backend/server.py). The TMDB request itself is
    outside the model: the loops start from the decoded list of items. */
module Enhance {
  import opened Common
  import opened Catalogue
  import opened Availability

  /** One item of a TMDB result list; `None` is a key the item lacks.
      `voteAverage` is TMDB's `vote_average`, a decimal on a 0-10 scale,
      written as a whole number of tenths (7.3 as 73) throughout the model. */
  datatype RawItem = RawItem(
    id: int,
    mediaType: Option<string>,
    title: Option<string>,
    name: Option<string>,
    overview: Option<string>,
    posterPath: Option<string>,
    backdropPath: Option<string>,
    releaseDate: Option<string>,
    firstAirDate: Option<string>,
    voteAverage: Option<int>,
    voteCount: Option<int>,
    genreIds: seq<int>,
    numberOfSeasons: Option<int>,
    numberOfEpisodes: Option<int>)

  /** One element of the `results` the API returns (the ContentResult model
      of the source). `voteAverage` is in tenths, copied unchanged from the
      TMDB item (0 when the item lacks one). */
  datatype ContentResult = ContentResult(
    id: int,
    title: Option<string>,
    overview: string,
    posterPath: Option<string>,
    backdropPath: Option<string>,
    releaseDate: Option<string>,
    firstAirDate: Option<string>,
    voteAverage: int,
    voteCount: int,
    genreNames: seq<string>,
    platforms: seq<PlatformLink>,
    contentType: string,
    seasons: Option<int>,
    episodes: Option<int>,
    castSupport: CastSupport)

  // ---------------------------------------------------------------------
  // Content type, title and genres
  // ---------------------------------------------------------------------

  /** A non-empty first air date makes an item TV, otherwise a non-empty
      release date makes it a movie, otherwise `media_type` decides, movie by
      default. */
  function InferContentType(item: RawItem): (ct: string)
    ensures ct == "tv" <==>
      Truthy(item.firstAirDate) || (!Truthy(item.releaseDate) && item.mediaType == Some("tv"))
    ensures ct == "movie" <==>
      !Truthy(item.firstAirDate) && (Truthy(item.releaseDate) || item.mediaType.GetOr("movie") == "movie")
    ensures ct != "movie" && ct != "tv" ==>
      !Truthy(item.firstAirDate) && !Truthy(item.releaseDate) && item.mediaType == Some(ct)
  {
    if Truthy(item.firstAirDate) then "tv"
    else if Truthy(item.releaseDate) then "movie"
    else item.mediaType.GetOr("movie")
  }

  /** Movies take `title` (possibly missing); everything else takes `name`,
      defaulting to the empty string. */
  function TitleFor(item: RawItem, contentType: string): Option<string> {
    if contentType == "movie" then item.title else Some(item.name.GetOr(""))
  }

  const GenreMap: map<int, string> :=
    map[
      28 := "Action", 35 := "Comedy", 18 := "Drama", 27 := "Horror",
      878 := "Sci-Fi", 53 := "Thriller", 10749 := "Romance", 16 := "Animation",
      80 := "Crime", 99 := "Documentary", 10751 := "Family", 14 := "Fantasy",
      36 := "History", 10402 := "Music", 9648 := "Mystery", 10770 := "TV Movie",
      37 := "Western", 10752 := "War", 10759 := "Action & Adventure",
      10762 := "Kids", 10763 := "News", 10764 := "Reality", 10765 := "Sci-Fi & Fantasy",
      10766 := "Soap", 10767 := "Talk", 10768 := "War & Politics"
    ]

  function GenreName(id: int): string {
    if id in GenreMap then GenreMap[id] else "Unknown"
  }

  /** The genre comprehension: one name per id, in the same order. */
  function GenreNames(ids: seq<int>): (names: seq<string>)
    ensures |names| == |ids|
    ensures forall i :: 0 <= i < |ids| ==> names[i] == GenreName(ids[i])
  {
    seq(|ids|, i requires 0 <= i < |ids| => GenreName(ids[i]))
  }

  /** No genre of the table is called "Unknown", so that name marks exactly
      the ids the table lacks. */
  lemma UnknownExactlyWhenUnmapped(ids: seq<int>, i: nat)
    requires i < |ids|
    ensures GenreNames(ids)[i] == "Unknown" <==> ids[i] !in GenreMap
  {
    assert forall k :: k in GenreMap ==> GenreMap[k] != "Unknown";
  }

  // ---------------------------------------------------------------------
  // One item
  // ---------------------------------------------------------------------

  /** The dictionary `_enhance_content_data` returns, given the platforms and
      cast support it computed. */
  function Shape(item: RawItem, platforms: seq<PlatformLink>, cast: CastSupport): ContentResult {
    var ct := InferContentType(item);
    ContentResult(
      item.id,
      TitleFor(item, ct),
      item.overview.GetOr(""),
      if Truthy(item.posterPath) then Some("https://image.tmdb.org/t/p/w500" + item.posterPath.value) else None,
      if Truthy(item.backdropPath) then Some("https://image.tmdb.org/t/p/w1280" + item.backdropPath.value) else None,
      Some(item.releaseDate.GetOr("")),
      Some(item.firstAirDate.GetOr("")),
      item.voteAverage.GetOr(0),
      item.voteCount.GetOr(0),
      GenreNames(item.genreIds),
      platforms,
      ct,
      if ct == "tv" then item.numberOfSeasons else None,
      if ct == "tv" then item.numberOfEpisodes else None,
      cast)
  }

  /** `c` is what enhancing `item` under `filter` can produce: the item's own
      fields reshaped, platforms the availability rules allow, and the cast
      support those platforms add up to. */
  predicate EnhancedFrom(cat: Catalogue, item: RawItem, filter: Option<string>, c: ContentResult) {
    var ct := InferContentType(item);
    && c == Shape(item, c.platforms, CastSupportOf(cat, c.platforms))
    && (forall i :: 0 <= i < |c.platforms| ==> LinkFor(cat, ct, item.id, LiveQualities, c.platforms[i]))
    && DistinctPlatforms(c.platforms)
    && (FilterHit(cat, ct, filter) ==> |c.platforms| == 1 && c.platforms[0].platform == filter.value)
    && (!FilterHit(cat, ct, filter) && |EligibleKeys(cat, ct)| >= 2 ==>
          2 <= |c.platforms| <= Min(5, |EligibleKeys(cat, ct)|))
    && (|EligibleKeys(cat, ct)| == 0 ==> c.platforms == [])
  }

  /** The item is dropped: a platform filter is set and no platform carries
      the item's content type. */
  predicate DroppedByFilter(cat: Catalogue, item: RawItem, filter: Option<string>) {
    Truthy(filter) && |EligibleKeys(cat, InferContentType(item))| == 0
  }

  /** `_enhance_content_data`: `Ok(None)` exactly when a platform filter is
      set and no platform was found; an error when the random platform pick
      raises. */
  method EnhanceContentData(cat: Catalogue, item: RawItem, filter: Option<string>)
    returns (r: Result<Option<ContentResult>, AvailabilityError>)
    ensures r.Err? <==> AvailabilityFails(cat, InferContentType(item), filter)
    ensures r.Ok? ==> (r.value.None? <==> DroppedByFilter(cat, item, filter))
    ensures r.Ok? && r.value.Some? ==> EnhancedFrom(cat, item, filter, r.value.value)
  {
    var ct := InferContentType(item);
    var availability := GetPlatformAvailability(cat, item.id, ct, filter);
    if availability.Err? {
      return Err(availability.error);
    }
    var platforms := availability.value;
    if filter.Some? && filter.value != "" && platforms == [] {
      return Ok(None);
    }
    var cast := GetCastSupport(cat, platforms);
    r := Ok(Some(Shape(item, platforms, cast)));
  }

  // ---------------------------------------------------------------------
  // Result lists
  // ---------------------------------------------------------------------

  predicate IsPerson(item: RawItem) {
    item.mediaType == Some("person")
  }

  /** The items that survive the result loop, in their original order. */
  function Kept(cat: Catalogue, items: seq<RawItem>, filter: Option<string>): (kept: seq<RawItem>)
    ensures |kept| <= |items|
    ensures forall j :: 0 <= j < |kept| ==> !IsPerson(kept[j]) && !DroppedByFilter(cat, kept[j], filter)
  {
    if items == [] then []
    else
      var last := items[|items| - 1];
      Kept(cat, items[..|items| - 1], filter)
        + (if !IsPerson(last) && !DroppedByFilter(cat, last, filter) then [last] else [])
  }

  /** Some non-person item makes the platform pick raise. */
  predicate AnyFails(cat: Catalogue, items: seq<RawItem>, filter: Option<string>) {
    exists i :: 0 <= i < |items| && ItemFails(cat, items[i], filter)
  }

  predicate ItemFails(cat: Catalogue, item: RawItem, filter: Option<string>) {
    !IsPerson(item) && AvailabilityFails(cat, InferContentType(item), filter)
  }

  /** `enhanced` holds, in order, one result enhanced from each kept item. */
  predicate AllEnhanced(cat: Catalogue, kept: seq<RawItem>, filter: Option<string>, enhanced: seq<ContentResult>) {
    |enhanced| == |kept| && forall j :: 0 <= j < |enhanced| ==> EnhancedFrom(cat, kept[j], filter, enhanced[j])
  }

  /** The shared loop: skip persons, enhance the rest, drop the `None`s. An
      error in any item aborts the whole list, as the exception does. */
  method EnhanceEach(cat: Catalogue, items: seq<RawItem>, filter: Option<string>)
    returns (r: Result<seq<ContentResult>, AvailabilityError>)
    ensures r.Err? <==> AnyFails(cat, items, filter)
    ensures r.Ok? ==> |r.value| == |Kept(cat, items, filter)|
    ensures r.Ok? ==> forall j :: 0 <= j < |r.value| ==> EnhancedFrom(cat, Kept(cat, items, filter)[j], filter, r.value[j])
  {
    var enhanced: seq<ContentResult> := [];
    for i := 0 to |items|
      invariant !AnyFails(cat, items[..i], filter)
      invariant AllEnhanced(cat, Kept(cat, items[..i], filter), filter, enhanced)
    {
      var item := items[i];
      KeptStep(cat, items, filter, i);
      if IsPerson(item) {
        NoNewFailure(cat, items, filter, i);
        continue;
      }
      var e := EnhanceContentData(cat, item, filter);
      if e.Err? {
        assert ItemFails(cat, items[i], filter);
        return Err(e.error);
      }
      NoNewFailure(cat, items, filter, i);
      if e.value.Some? {
        AllEnhancedAppend(cat, Kept(cat, items[..i], filter), filter, enhanced, item, e.value.value);
        enhanced := enhanced + [e.value.value];
      }
    }
    assert items[..|items|] == items;
    r := Ok(enhanced);
  }

  /** One more item of the loop: kept exactly when it is neither a person
      nor dropped by the filter. */
  lemma KeptStep(cat: Catalogue, items: seq<RawItem>, filter: Option<string>, i: nat)
    requires i < |items|
    ensures Kept(cat, items[..i + 1], filter) ==
      Kept(cat, items[..i], filter)
        + (if !IsPerson(items[i]) && !DroppedByFilter(cat, items[i], filter) then [items[i]] else [])
  {
    assert items[..i + 1][..i] == items[..i];
  }

  lemma AllEnhancedAppend(cat: Catalogue, kept: seq<RawItem>, filter: Option<string>, enhanced: seq<ContentResult>,
                          item: RawItem, c: ContentResult)
    requires AllEnhanced(cat, kept, filter, enhanced)
    requires EnhancedFrom(cat, item, filter, c)
    ensures AllEnhanced(cat, kept + [item], filter, enhanced + [c])
  {
  }

  /** An item that does not raise keeps the prefix free of failures. */
  lemma NoNewFailure(cat: Catalogue, items: seq<RawItem>, filter: Option<string>, i: nat)
    requires i < |items|
    requires !AnyFails(cat, items[..i], filter)
    requires IsPerson(items[i]) || !AvailabilityFails(cat, InferContentType(items[i]), filter)
    ensures !AnyFails(cat, items[..i + 1], filter)
  {
    var prefix := items[..i + 1];
    forall m | 0 <= m < |prefix|
      ensures !ItemFails(cat, prefix[m], filter)
    {
      if m < i {
        assert prefix[m] == items[..i][m];
      }
    }
  }

  /** The body of a search response; the TMDB paging fields pass through. */
  datatype SearchResponse = SearchResponse(
    results: seq<ContentResult>,
    totalResults: int,
    page: int,
    totalPages: int,
    contentType: Option<string>,
    platformFilter: Option<string>)

  /** A decoded TMDB search page. */
  datatype TmdbPage = TmdbPage(results: seq<RawItem>, totalResults: int, page: int, totalPages: int)

  /** `response` is what a live search answers for the TMDB page `data`: the
      first 28 kept items, each enhanced, with TMDB's paging fields and the
      request's content type and filter echoed. */
  predicate LiveSearchResult(cat: Catalogue, data: TmdbPage, contentType: string, filter: Option<string>,
                             response: SearchResponse) {
    && |response.results| == Min(28, |Kept(cat, data.results, filter)|)
    && (forall j :: 0 <= j < |response.results| ==>
          EnhancedFrom(cat, Kept(cat, data.results, filter)[j], filter, response.results[j]))
    && response.totalResults == data.totalResults
    && response.page == data.page
    && response.totalPages == data.totalPages
    && response.contentType == Some(contentType)
    && response.platformFilter == filter
  }

  /** The result loop of `search_content`: enhance, then keep the first 28. */
  method ShapeSearch(cat: Catalogue, data: TmdbPage, contentType: string, filter: Option<string>)
    returns (r: Result<SearchResponse, AvailabilityError>)
    ensures r.Err? <==> AnyFails(cat, data.results, filter)
    ensures r.Ok? ==> LiveSearchResult(cat, data, contentType, filter, r.value)
    ensures r.Ok? ==> |r.value.results| <= 28
  {
    var enhanced := EnhanceEach(cat, data.results, filter);
    if enhanced.Err? {
      return Err(enhanced.error);
    }
    var results := enhanced.value[..Min(28, |enhanced.value|)];
    r := Ok(SearchResponse(results, data.totalResults, data.page, data.totalPages, Some(contentType), filter));
  }

  /** The result loop of `get_trending_content`: the first 28 raw items are
      taken before persons are skipped, and there is no platform filter. */
  method ShapeTrending(cat: Catalogue, items: seq<RawItem>)
    returns (r: Result<seq<ContentResult>, AvailabilityError>)
    ensures r.Err? <==> AnyFails(cat, items[..Min(28, |items|)], None)
    ensures r.Ok? ==> |r.value| == |Kept(cat, items[..Min(28, |items|)], None)| <= 28
    ensures r.Ok? ==> forall j :: 0 <= j < |r.value| ==>
      EnhancedFrom(cat, Kept(cat, items[..Min(28, |items|)], None)[j], None, r.value[j])
  {
    r := EnhanceEach(cat, items[..Min(28, |items|)], None);
  }

  /** No shaped search result is a person. */
  lemma {:induction false} KeptHasNoPerson(cat: Catalogue, items: seq<RawItem>, filter: Option<string>, j: nat)
    requires j < |Kept(cat, items, filter)|
    ensures InferContentType(Kept(cat, items, filter)[j]) != "person"
  {
    var item := Kept(cat, items, filter)[j];
    assert !IsPerson(item);
  }

  /** Without a platform filter, only persons are skipped. */
  lemma {:induction false} KeptWithoutFilter(cat: Catalogue, items: seq<RawItem>)
    ensures |Kept(cat, items, None)| == |items| - CountPersons(items)
  {
    if items != [] {
      KeptWithoutFilter(cat, items[..|items| - 1]);
    }
  }

  function CountPersons(items: seq<RawItem>): nat {
    if items == [] then 0
    else CountPersons(items[..|items| - 1]) + (if IsPerson(items[|items| - 1]) then 1 else 0)
  }
}

/** The search results page (frontend/src/pages/SearchResults.js): the query
    it reads from its URL, the request it sends, the edits its controls make
    to the URL, the page counter and its reset, the client-side sort and the
    pagination controls. */
module SearchResults {
  import opened Common
  import opened Catalogue
  import opened Enhance
  import opened FormUrlEncoded
  import opened UrlSearchParams
  import opened StableSort
  import opened ContentJson

  // ---------------------------------------------------------------------
  // The query read from the URL
  // ---------------------------------------------------------------------

  /** The search the page shows: text, content type and platform filter. */
  datatype Query = Query(q: string, contentType: string, platform: Option<string>)

  /** `q` defaults to the empty string, `content_type` to "multi" and
      `platform` to null; an empty value counts as missing. */
  function DeriveQuery(params: Pairs): (query: Query)
    ensures query.q == "" <==> !Truthy(Lookup(params, "q"))
    ensures query.q != "" ==> Lookup(params, "q") == Some(query.q)
    ensures query.contentType != ""
    ensures Truthy(Lookup(params, "content_type")) ==> Lookup(params, "content_type") == Some(query.contentType)
    ensures !Truthy(Lookup(params, "content_type")) ==> query.contentType == "multi"
    ensures query.platform.Some? <==> Truthy(Lookup(params, "platform"))
    ensures query.platform.Some? ==> query.platform.value != "" && Lookup(params, "platform") == query.platform
  {
    var platform := Lookup(params, "platform");
    Query(OrElse(Lookup(params, "q"), ""), OrElse(Lookup(params, "content_type"), "multi"),
          if Truthy(platform) then platform else None)
  }

  // ---------------------------------------------------------------------
  // The request
  // ---------------------------------------------------------------------

  /** The parameters `fetchSearchResults` sends: q, page and content_type in
      that order, then platform when it is truthy. */
  function RequestParams(q: string, page: int, contentType: string, platform: Option<string>): (params: Pairs)
    ensures Lookup(params, "q") == Some(q)
    ensures Lookup(params, "page") == Some(IntToString(page))
    ensures Lookup(params, "content_type") == Some(contentType)
    ensures Lookup(params, "platform") == (if Truthy(platform) then platform else None)
    ensures |params| == if Truthy(platform) then 4 else 3
  {
    var base := [("q", q), ("page", IntToString(page)), ("content_type", contentType)];
    if Truthy(platform) then
      var params := base + [("platform", platform.value)];
      assert Lookup(params[3..], "platform") == Some(platform.value);
      assert Lookup(params[2..], "content_type") == Some(contentType);
      assert Lookup(params[2..], "platform") == Some(platform.value);
      assert Lookup(params[1..], "content_type") == Some(contentType);
      assert Lookup(params[1..], "platform") == Some(platform.value);
      params
    else
      assert Lookup(base[2..], "content_type") == Some(contentType);
      assert Lookup(base[1..], "content_type") == Some(contentType);
      assert Lookup(base[2..], "platform") == None;
      assert Lookup(base[1..], "platform") == None;
      base
  }

  /** The URL `fetchSearchResults` requests. */
  /** The request parameters as `fetchSearchResults` builds them: a
      `URLSearchParams` from the three fixed entries, then `append` of the
      platform when one is chosen. */
  method BuildRequestParams(q: string, page: int, contentType: string, platform: Option<string>)
    returns (params: Pairs)
    ensures params == RequestParams(q, page, contentType, platform)
  {
    var p := new SearchParams.FromPairs([("q", q), ("page", IntToString(page)), ("content_type", contentType)]);
    if Truthy(platform) {
      p.Append("platform", platform.value);
    }
    params := p.list;
  }

  function SearchUrl(backend: string, q: string, page: int, contentType: string, platform: Option<string>): string {
    backend + "/api/search?" + Serialize(RequestParams(q, page, contentType, platform))
  }

  /** The server reads back exactly the parameters the page sent: the text,
      the page number, the content type, and a platform only when one was
      chosen. */
  lemma RequestRoundTrip(q: string, page: nat, contentType: string, platform: Option<string>)
    ensures Lookup(Parse(Serialize(RequestParams(q, page, contentType, platform))), "q") == Some(q)
    ensures Lookup(Parse(Serialize(RequestParams(q, page, contentType, platform))), "content_type") == Some(contentType)
    ensures var p := Lookup(Parse(Serialize(RequestParams(q, page, contentType, platform))), "page");
      p.Some? && AllDigits(p.value) && ParseNat(p.value) == page
    ensures Lookup(Parse(Serialize(RequestParams(q, page, contentType, platform))), "platform").Some? <==> Truthy(platform)
  {
    ParseSerialize(RequestParams(q, page, contentType, platform));
  }

  /** The decoded body of `/api/search`; `results` may be absent. */
  datatype SearchData = SearchData(results: Option<seq<Content>>, totalResults: int, page: int, totalPages: int)

  /** The body the backend sends for a SearchResponse. */
  function FromResponse(r: SearchResponse): SearchData {
    SearchData(Some(seq(|r.results|, i requires 0 <= i < |r.results| => FromResult(r.results[i]))),
               r.totalResults, r.page, r.totalPages)
  }

  /** What `fetch` hands back. */
  datatype FetchResponse = FetchResponse(ok: bool, body: SearchData)

  /** `fetchSearchResults`: the network is the parameter `fetch`; a response
      that is not ok throws. */
  function FetchSearchResults(fetch: string -> FetchResponse, backend: string, q: string, page: int,
                              contentType: string, platform: Option<string>): (r: Result<SearchData, string>)
    ensures r.Err? <==> !fetch(SearchUrl(backend, q, page, contentType, platform)).ok
    ensures r.Err? ==> r.error == "Failed to search content"
    ensures r.Ok? ==> r.value == fetch(SearchUrl(backend, q, page, contentType, platform)).body
  {
    var response := fetch(SearchUrl(backend, q, page, contentType, platform));
    if !response.ok then Err("Failed to search content") else Ok(response.body)
  }

  // ---------------------------------------------------------------------
  // Sorting
  // ---------------------------------------------------------------------

  /** `release_date || first_air_date || '1900-01-01'`. */
  function DateText(c: Content): string {
    OrElse(c.releaseDate, OrElse(c.firstAirDate, "1900-01-01"))
  }

  /** The integer each sort option orders by, descending; "relevance" and
      any other value have none. `dateValue` stands for `new Date(…)`. */
  function SortKey(sortBy: string, dateValue: string -> int): Option<Content -> int> {
    if sortBy == "rating" then Some((c: Content) => c.voteAverage)
    else if sortBy == "year" then Some((c: Content) => dateValue(DateText(c)))
    else if sortBy == "popularity" then Some((c: Content) => c.voteCount)
    else None
  }

  /** `sortedResults`: a copy of the results, sorted in place by the chosen
      key; the results themselves are a value and stay as they were. */
  method SortedResults(data: Option<SearchData>, sortBy: string, dateValue: string -> int)
    returns (sorted: seq<Content>)
    ensures data.None? || data.value.results.None? ==> sorted == []
    ensures data.Some? && data.value.results.Some? ==> multiset(sorted) == multiset(data.value.results.value)
    ensures data.Some? && data.value.results.Some? && SortKey(sortBy, dateValue).None? ==>
      sorted == data.value.results.value
    ensures data.Some? && data.value.results.Some? && SortKey(sortBy, dateValue).Some? ==>
      var key := SortKey(sortBy, dateValue).value;
      && SortedDesc(sorted, key)
      && (forall k :: WithKey(sorted, key, k) == WithKey(data.value.results.value, key, k))
      && sorted == InsertionSort(data.value.results.value, key)
  {
    if data.None? || data.value.results.None? {
      return [];
    }
    var results := data.value.results.value;
    var key := SortKey(sortBy, dateValue);
    if key.None? {
      return results;
    }
    var copy := new Content[|results|](i requires 0 <= i < |results| => results[i]);
    assert copy[..] == results;
    SortInPlace(copy, key.value);
    sorted := copy[..];
    SortIsPermutation(results, key.value);
    SortIsSorted(results, key.value);
    forall k
      ensures WithKey(sorted, key.value, k) == WithKey(results, key.value, k)
    {
      SortIsStable(results, key.value, k);
    }
  }

  /** The key of "year". */
  function YearKey(dateValue: string -> int): Content -> int {
    SortKey("year", dateValue).value
  }

  /** Under "year", an item with neither date takes the date 1900-01-01, so
      when every real date is later, undated items come after all dated
      ones. */
  lemma UndatedSortLast(results: seq<Content>, sorted: seq<Content>, dateValue: string -> int, i: nat, j: nat)
    requires forall c :: c in results && (Truthy(c.releaseDate) || Truthy(c.firstAirDate)) ==>
      dateValue(DateText(c)) > dateValue("1900-01-01")
    requires sorted == InsertionSort(results, YearKey(dateValue))
    requires i < j < |sorted|
    requires !Truthy(sorted[i].releaseDate) && !Truthy(sorted[i].firstAirDate)
    ensures !Truthy(sorted[j].releaseDate) && !Truthy(sorted[j].firstAirDate)
  {
    var key := YearKey(dateValue);
    SortIsSorted(results, key);
    SortIsPermutation(results, key);
    assert key == (c: Content) => dateValue(DateText(c));
    assert DateText(sorted[i]) == "1900-01-01";
    assert key(sorted[i]) >= key(sorted[j]);
    assert sorted[j] in multiset(results);
  }

  // ---------------------------------------------------------------------
  // Labels
  // ---------------------------------------------------------------------

  /** `getContentTypeLabel`. */
  function ContentTypeLabel(contentType: string): (text: string)
    ensures text == "Movies" <==> contentType == "movie"
    ensures text == "TV Shows" <==> contentType == "tv"
    ensures text == "Movies & TV Shows" <==> contentType != "movie" && contentType != "tv"
  {
    if contentType == "movie" then "Movies"
    else if contentType == "tv" then "TV Shows"
    else "Movies & TV Shows"
  }

  /** The methods a plain object inherits from `Object.prototype` whose
      `name` is their own key. */
  const InheritedMethods: set<string> := {
    "hasOwnProperty", "isPrototypeOf", "propertyIsEnumerable", "toLocaleString", "toString", "valueOf",
    "__defineGetter__", "__defineSetter__", "__lookupGetter__", "__lookupSetter__"}

  /** `obj[key]?.name` for a key the parsed catalogue object does not own:
      the inherited `constructor` is the function `Object`, each inherited
      method is named after its key, and `__proto__` answers
      `Object.prototype`, which has no `name`. */
  function InheritedName(key: string): (name: Option<string>)
    ensures name.Some? <==> key == "constructor" || key in InheritedMethods
    ensures key == "constructor" ==> name == Some("Object")
    ensures key in InheritedMethods ==> name == Some(key)
  {
    if key == "constructor" then Some("Object")
    else if key in InheritedMethods then Some(key)
    else None
  }

  /** `getPlatformName`: nothing without a filter or a catalogue; the name
      of the filtered entry when the catalogue has one; otherwise whatever
      the property lookup finds on `Object.prototype`. */
  function PlatformName(filter: Option<string>, platforms: Option<Catalogue>): (name: Option<string>)
    ensures name.Some? <==>
      (Truthy(filter) && platforms.Some? &&
       (filter.value in platforms.value || filter.value == "constructor" || filter.value in InheritedMethods))
    ensures name.Some? && filter.value in platforms.value ==> name.value == platforms.value[filter.value].name
    ensures name.Some? && filter.value !in platforms.value ==> name == InheritedName(filter.value)
  {
    if !Truthy(filter) || platforms.None? then None
    else if filter.value in platforms.value then Some(platforms.value[filter.value].name)
    else InheritedName(filter.value)
  }

  /** A `platform=constructor` address shows "on Object" whenever the
      catalogue has no entry of that name, and an unknown key that is no
      inherited member shows no platform name. */
  lemma InheritedFilterNames(cat: Catalogue, key: string)
    requires key != "" && key !in cat
    ensures key == "constructor" ==> PlatformName(Some(key), Some(cat)) == Some("Object")
    ensures key in InheritedMethods ==> PlatformName(Some(key), Some(cat)) == Some(key)
    ensures key != "constructor" && key !in InheritedMethods ==> PlatformName(Some(key), Some(cat)).None?
  {
  }

  // ---------------------------------------------------------------------
  // Pagination and the results area
  // ---------------------------------------------------------------------

  datatype Pagination = Pagination(pages: seq<int>, previousDisabled: bool, nextDisabled: bool)

  /** The pagination bar: shown only for more than one page, with buttons
      1..min(5, total pages), Previous disabled on page 1 and Next on the
      last page. */
  function PaginationFor(totalPages: int, currentPage: int): (bar: Option<Pagination>)
    ensures bar.Some? <==> totalPages > 1
    ensures bar.Some? ==> |bar.value.pages| == Min(5, totalPages)
    ensures bar.Some? ==> forall i :: 0 <= i < |bar.value.pages| ==> bar.value.pages[i] == i + 1
    ensures bar.Some? ==> (bar.value.previousDisabled <==> currentPage == 1)
    ensures bar.Some? ==> (bar.value.nextDisabled <==> currentPage == totalPages)
  {
    if totalPages <= 1 then None
    else Some(Pagination(seq(Min(5, totalPages), i => i + 1), currentPage == 1, currentPage == totalPages))
  }

  datatype Control = Previous | PageButton(number: int) | Next

  /** The page a control asks for. */
  function Target(control: Control, currentPage: int): int {
    match control
    case Previous => currentPage - 1
    case PageButton(n) => n
    case Next => currentPage + 1
  }

  /** A control the bar shows and enables. */
  predicate Enabled(bar: Pagination, control: Control) {
    match control
    case Previous => !bar.previousDisabled
    case PageButton(n) => n in bar.pages
    case Next => !bar.nextDisabled
  }

  /** From a page within range, every enabled control leads to a page within
      range. */
  lemma PaginationStaysInRange(totalPages: int, currentPage: int, control: Control)
    requires 1 <= currentPage <= totalPages && totalPages > 1
    requires Enabled(PaginationFor(totalPages, currentPage).value, control)
    ensures 1 <= Target(control, currentPage) <= totalPages
  {
    var bar := PaginationFor(totalPages, currentPage).value;
    if control.PageButton? {
      var i :| 0 <= i < |bar.pages| && bar.pages[i] == control.number;
    }
  }

  /** What the results area shows. */
  datatype View = Prompt | Spinner | Failed | NoResults | Grid(cards: seq<Content>, pagination: Option<Pagination>)

  /** The prompt for an empty query, then spinner, error, empty notice and
      the grid, in that precedence. */
  function RenderResults(q: string, isLoading: bool, failed: bool, data: Option<SearchData>,
                         sorted: seq<Content>, currentPage: int): (v: View)
    ensures v.Prompt? <==> q == ""
    ensures v.Spinner? <==> q != "" && isLoading
    ensures v.Failed? <==> q != "" && !isLoading && failed
    ensures v.NoResults? <==> q != "" && !isLoading && !failed && sorted == []
    ensures v.Grid? ==> v.cards == sorted
    ensures v.Grid? ==> (v.pagination.Some? <==> data.Some? && data.value.totalPages > 1)
  {
    if q == "" then Prompt
    else if isLoading then Spinner
    else if failed then Failed
    else if sorted == [] then NoResults
    else Grid(sorted, if data.Some? then PaginationFor(data.value.totalPages, currentPage) else None)
  }

  // ---------------------------------------------------------------------
  // URL edits
  // ---------------------------------------------------------------------

  /** The list `handlePlatformChange(choice)` leaves: "all" and the empty
      choice remove the filter, anything else sets it. */
  function PlatformEdit(params: Pairs, choice: string): Pairs {
    if choice != "" && choice != "all" then SetValue(params, "platform", choice) else Without(params, "platform")
  }

  /** Choosing a content type changes the derived content type and nothing
      else the page reads, and every other parameter keeps its value. */
  lemma {:induction false} ContentTypeChangeQuery(params: Pairs, contentType: string, other: string)
    requires contentType != "" && other != "content_type"
    ensures DeriveQuery(SetValue(params, "content_type", contentType)) == DeriveQuery(params).(contentType := contentType)
    ensures Lookup(SetValue(params, "content_type", contentType), other) == Lookup(params, other)
  {
    LookupAfterSet(params, "content_type", contentType);
    LookupOtherAfterSet(params, "content_type", contentType, "q");
    LookupOtherAfterSet(params, "content_type", contentType, "platform");
    LookupOtherAfterSet(params, "content_type", contentType, other);
  }

  /** Choosing a platform sets the derived filter to it, and "all" or the
      empty choice clears it; nothing else the page reads changes, and
      every other parameter keeps its value. */
  lemma {:induction false} PlatformChangeQuery(params: Pairs, choice: string, other: string)
    requires other != "platform"
    ensures DeriveQuery(PlatformEdit(params, choice)) ==
      DeriveQuery(params).(platform := if choice == "" || choice == "all" then None else Some(choice))
    ensures Lookup(PlatformEdit(params, choice), other) == Lookup(params, other)
    ensures choice == "" || choice == "all" ==> Lookup(PlatformEdit(params, choice), "platform") == None
  {
    if choice != "" && choice != "all" {
      LookupAfterSet(params, "platform", choice);
      LookupOtherAfterSet(params, "platform", choice, "q");
      LookupOtherAfterSet(params, "platform", choice, "content_type");
      LookupOtherAfterSet(params, "platform", choice, other);
    } else {
      LookupAfterWithout(params, "platform");
      LookupOtherAfterWithout(params, "platform", "q");
      LookupOtherAfterWithout(params, "platform", "content_type");
      LookupOtherAfterWithout(params, "platform", other);
    }
  }

  // ---------------------------------------------------------------------
  // The page
  // ---------------------------------------------------------------------

  /** The page's state: the address bar's search parameters (owned by the
      router), the page number, the sort option and the filter panel, and
      the search the page-reset effect last ran for. */
  class SearchResultsPage {
    var params: Pairs
    var currentPage: int
    var sortBy: string
    var showFilters: bool
    var effectSearch: Query

    /** The search the page shows. */
    function Current(): Query
      reads this
    {
      DeriveQuery(params)
    }

    /** No page reset is pending: the effect has run for the search shown. */
    predicate Settled()
      reads this
    {
      effectSearch == Current()
    }

    /** Mounting on the URL search string `search`; the effect's first run
        sets the page it already has. */
    constructor(search: string)
      ensures params == Parse(search)
      ensures currentPage == 1 && sortBy == "relevance" && !showFilters
      ensures Settled()
    {
      params := Parse(search);
      currentPage := 1;
      sortBy := "relevance";
      showFilters := false;
      effectSearch := DeriveQuery(Parse(search));
    }

    /** The request the query issues for the state being rendered: none for
        an empty query, otherwise the current search at the current page. */
    function Request(backend: string): (url: Option<string>)
      reads this
      ensures url.None? <==> Current().q == ""
      ensures url.Some? ==> url.value == SearchUrl(backend, Current().q, currentPage, Current().contentType, Current().platform)
    {
      var query := Current();
      if query.q == "" then None
      else Some(SearchUrl(backend, query.q, currentPage, query.contentType, query.platform))
    }

    /** `setSearchParams(next)`: the router writes `?` and the serialized
        list into the address bar and the page reads it back. The page
        number is untouched until the reset effect runs, so the render in
        between requests the new search at the old page. */
    method SetSearchParams(next: SearchParams)
      modifies this
      ensures params == next.list
      ensures currentPage == old(currentPage) && effectSearch == old(effectSearch)
      ensures sortBy == old(sortBy) && showFilters == old(showFilters)
      ensures old(Settled()) ==> (Settled() <==> Current() == old(Current()))
    {
      ParseSerialize(next.list);
      params := Parse("?" + next.ToString());
    }

    /** The effect on `[query, contentType, platformFilter]`: after a render
        whose search differs from the one it last ran for, the page goes
        back to 1. */
    method RunResetEffect()
      modifies this
      ensures Current() != old(effectSearch) ==> currentPage == 1
      ensures Current() == old(effectSearch) ==> currentPage == old(currentPage)
      ensures Settled()
      ensures params == old(params) && sortBy == old(sortBy) && showFilters == old(showFilters)
    {
      if DeriveQuery(params) != effectSearch {
        currentPage := 1;
      }
      effectSearch := DeriveQuery(params);
    }

    /** `handleContentTypeChange`: set `content_type` on a copy of the
        parameters and navigate to it. */
    method HandleContentTypeChange(contentType: string)
      modifies this
      ensures params == SetValue(old(params), "content_type", contentType)
      ensures currentPage == old(currentPage) && effectSearch == old(effectSearch)
      ensures sortBy == old(sortBy) && showFilters == old(showFilters)
      ensures old(Settled()) ==> (Settled() <==> Current() == old(Current()))
    {
      var copy := new SearchParams.FromPairs(params);
      copy.Set("content_type", contentType);
      SetSearchParams(copy);
    }

    /** `handlePlatformChange`: set or delete `platform` on a copy of the
        parameters and navigate to it. */
    method HandlePlatformChange(choice: string)
      modifies this
      ensures params == PlatformEdit(old(params), choice)
      ensures currentPage == old(currentPage) && effectSearch == old(effectSearch)
      ensures sortBy == old(sortBy) && showFilters == old(showFilters)
      ensures old(Settled()) ==> (Settled() <==> Current() == old(Current()))
    {
      var copy := new SearchParams.FromPairs(params);
      if choice != "" && choice != "all" {
        copy.Set("platform", choice);
      } else {
        copy.Delete("platform");
      }
      SetSearchParams(copy);
    }

    /** `handlePageChange` (the scroll to the top is not modelled). */
    method HandlePageChange(page: int)
      modifies this
      ensures currentPage == page
      ensures params == old(params) && sortBy == old(sortBy) && showFilters == old(showFilters)
      ensures effectSearch == old(effectSearch)
    {
      currentPage := page;
    }

    /** The sort select. */
    method SetSortBy(option: string)
      modifies this
      ensures sortBy == option
      ensures params == old(params) && currentPage == old(currentPage) && showFilters == old(showFilters)
      ensures effectSearch == old(effectSearch)
    {
      sortBy := option;
    }

    /** The Filters button. */
    method ToggleFilters()
      modifies this
      ensures showFilters == !old(showFilters)
      ensures params == old(params) && currentPage == old(currentPage) && sortBy == old(sortBy)
      ensures effectSearch == old(effectSearch)
    {
      showFilters := !showFilters;
    }
  }

  /** A content-type change on page `page` of a non-empty search first
      renders with the new type at the old page, so the backend receives
      that page for the new search before the effect puts the page back
      to 1. */
  lemma {:induction false} TypeChangeRequestsOldPage(params: Pairs, contentType: string, page: nat)
    requires DeriveQuery(params).q != "" && contentType != ""
    ensures var query := DeriveQuery(SetValue(params, "content_type", contentType));
      var sent := Parse(Serialize(RequestParams(query.q, page, query.contentType, query.platform)));
      && query.contentType == contentType
      && Lookup(sent, "content_type") == Some(contentType)
      && Lookup(sent, "page") == Some(IntToString(page))
  {
    ContentTypeChangeQuery(params, contentType, "q");
    var query := DeriveQuery(SetValue(params, "content_type", contentType));
    ParseSerialize(RequestParams(query.q, page, query.contentType, query.platform));
  }

  /** Choosing a platform and then "All Platforms" leaves no platform
      parameter and no filter, whatever the URL held before. */
  lemma PlatformThenAll(params: Pairs, key: string)
    ensures Lookup(PlatformEdit(PlatformEdit(params, key), "all"), "platform") == None
    ensures DeriveQuery(PlatformEdit(PlatformEdit(params, key), "all")).platform == None
  {
    LookupAfterWithout(PlatformEdit(params, key), "platform");
  }
}

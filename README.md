# Free streaming finder: search shaping and search pages

This project models the core of a small web application. It finds films and TV shows that are free to watch, and says which streaming platforms carry them.

The backend (`backend/server.py`) has these parts:

- **The platform catalogue.** A table of platforms, each with a name, a base URL, a description, the content types it carries and the casting protocols it supports.
- **Result shaping for TMDB answers.** TMDB is the film database the backend queries. Its answers are shaped as follows:
  - infer each item's content type;
  - name its genres;
  - attach platform links, chosen at random among the eligible platforms, or the single platform a filter names;
  - aggregate the links' casting support;
  - skip persons;
  - drop items a platform filter rules out;
  - cap the list at 28 items.
- **A canned search answer.** It is used when no TMDB answer is available.
- **Two routes.** The per-platform content route (404 for an unknown key) and the casting statistics route.

The React frontend is modelled as follows:

- **Header.** A search form that navigates to `/search?q=…&content_type=…`.
- **Platform grid.** It navigates to `/search?q=popular&platform=…&content_type=…`.
- **Search results page.** It does the following:
  - reads the query from the address bar with defaults;
  - builds the backend request;
  - sorts the results with a stable sort on a copy;
  - edits the parameters for the content-type and platform selects, resetting to page 1 when the search changes;
  - renders the prompt, spinner, error, empty notice, cards and pagination.
- **Content card.** Display rules for the card.
- **Hero carousel.** The index arithmetic for the trending carousel.

Query strings follow the application/x-www-form-urlencoded serializer and parser of the WHATWG URL Standard (section 5), with UTF-8 and percent-encoding. `URLSearchParams` follows section 6.2, including `set` and `delete`. `String.prototype.trim` follows ECMA-262, section 22.1.3.32. `Array.prototype.sort` is stable (ECMA-262, section 23.1.3.30). Any stable sort with a given key has exactly one result, and the model proves that this result is the insertion sort it runs in place on an array.

Files:

- `common.dfy`: options, results, JavaScript/Python truthiness, `%`, decimal rendering.
- `catalogue.dfy`: the platform table.
- `availability.dfy`: platform links and casting support.
- `enhance.dfy`: shaping of TMDB items.
- `mock_search.dfy`: the canned answer and the live/canned choice.
- `endpoints.dfy`: the two routes.
- `form_urlencoded.dfy`, `url_search_params.dfy`, `js_string.dfy`, `navigation.dfy`: the web platform pieces the pages rely on.
- `stable_sort.dfy`: the sort.
- `content.dfy`: the JSON shape the pages receive.
- `search_results.dfy`, `header.dfy`, `platform_grid.dfy`, `content_card.dfy`, `hero_section.dfy`: the pages and components.
- `round_trips.dfy`: how a search travels from one page to the next and on to the backend.

## Model

| member | source | states |
|---|---|---|
| Common.IntToString | frontend/src/components/ContentCard.js:23 | `String(n)`: a leading minus exactly for negative numbers, then digits that parse back to the absolute value, with no leading zero except for 0 itself |
| Common.ParseNatToString | frontend/src/components/ContentCard.js:23 | reading back a rendered natural number gives the number |
| Common.NatToStringInjective | frontend/src/pages/SearchResults.js:11-19 | distinct page numbers are sent as distinct strings |
| Catalogue.CastSupport.Grant | backend/server.py:523-526 | switching one protocol on leaves the other flags as they were |
| Catalogue.Eligible | backend/server.py:537-540 | the catalogue restricted to exactly the platforms carrying the content type, entries unchanged |
| Catalogue.TwoEligible | backend/server.py:537-540 | two distinct platforms carrying a type give at least two eligible keys |
| Catalogue.SupportedPlatformsServeEachType | backend/server.py:75-366 | the shipped table has at least two platforms for "movie" and for "tv", so the random pick cannot raise for those types |
| Availability.GetCastSupport | backend/server.py:512-528 | a flag is on exactly when some listed platform known to the catalogue supports that protocol |
| Availability.AnyGrantsExtend | backend/server.py:520-526 | one more link adds exactly what that link's platform grants |
| Availability.NoLinksNoSupport | backend/server.py:514-518 | an empty platform list supports no protocol |
| Availability.UnknownPlatformIgnored | backend/server.py:522 | a platform missing from the catalogue changes no flag |
| Availability.EligiblePlatforms | backend/server.py:537-540 | the loop builds exactly the eligible sub-catalogue |
| Availability.Sample | backend/server.py:559 | `random.sample`: the requested number of distinct keys, all from the population |
| Availability.LinksFor | backend/server.py:561-571 | one link per picked key, in order, each a link the catalogue allows for the item |
| Availability.GetPlatformAvailability | backend/server.py:530-573 | raises exactly when no filter hit leaves a single eligible platform. A filter hit gives one link to that platform. Otherwise at least two distinct eligible platforms, or none when nothing is eligible |
| Availability.FilterHitLink | backend/server.py:543-553 | a filtered link is free, names the platform and points at base URL / type / id |
| Enhance.InferContentType | backend/server.py:462-466 | "tv" exactly for a non-empty first air date, "movie" for a non-empty release date otherwise, else the media type or "movie" |
| Enhance.GenreNames | backend/server.py:469-481 | one name per genre id, in order, via the table |
| Enhance.UnknownExactlyWhenUnmapped | backend/server.py:469-481 | "Unknown" appears exactly for ids the table lacks |
| Enhance.EnhanceContentData | backend/server.py:459-510 | errors exactly when the platform pick raises. Dropped exactly when a filter is set and no platform matches. Otherwise the shaped dictionary of the item |
| Enhance.Kept | backend/server.py:404-411 | the surviving items are neither persons nor filter-dropped, in their original order |
| Enhance.EnhanceEach | backend/server.py:404-411 | the loop yields, in order, one shaped result per kept item, or the error of the first raising item |
| Enhance.KeptStep | backend/server.py:404-411 | one more item is kept exactly when it is neither a person nor dropped |
| Enhance.NoNewFailure | backend/server.py:404-411 | an item that does not raise keeps the prefix free of errors |
| Enhance.ShapeSearch | backend/server.py:400-417 | the live search answer: shaped kept items, capped at 28, paging fields passed through |
| Enhance.ShapeTrending | backend/server.py:445-455 | the trending loop shapes the kept items among the first 28 raw items |
| Enhance.KeptHasNoPerson | backend/server.py:407-409 | no shaped result is a person |
| Enhance.KeptWithoutFilter | backend/server.py:404-411 | without a filter only persons are skipped |
| MockSearch.OfType | backend/server.py:612-616 | the sublist of one content type, membership both ways |
| MockSearch.MockPlatformsFor | backend/server.py:619-652 | a known filter gives that platform alone, or nothing for a type it does not carry. Otherwise min(4, eligible) distinct eligible platforms |
| MockSearch.MockSearchResponse | backend/server.py:575-664 | the canned list narrowed by type, each item with allowed platforms and their cast support, one page |
| MockSearch.SelectionByType | backend/server.py:612-616 | "movie" and "tv" keep exactly the canned items of that type |
| MockSearch.MultiKeepsAll | backend/server.py:612-616 | every other type keeps all four canned items |
| MockSearch.KnownFilterUnsupportedType | backend/server.py:623-634 | under a known filter an item of an unsupported type stays, with no platforms and no cast support |
| MockSearch.SearchContent | backend/server.py:377-421 | no TMDB answer or a raising shaping step gives the canned answer, otherwise the live answer |
| Endpoints.CastStats.Bump | backend/server.py:810-812 | one counter goes up by one, the others stay |
| Endpoints.GetCastSupportStats | backend/server.py:798-818 | each protocol count equals the number of platforms supporting it; the total is the catalogue size |
| Endpoints.CountPlatform | backend/server.py:809-812 | each supported flag of one platform raises its counter once |
| Endpoints.CountStep | backend/server.py:808-812 | visiting one more platform accounts for it exactly once |
| Endpoints.CountsBounded | backend/server.py:798-818 | no count exceeds the number of platforms |
| Endpoints.GetPlatformContent | backend/server.py:780-796 | 404 "Platform not found" exactly for an unknown key, otherwise the search for that platform |
| Endpoints.MockPlatformPageIsSinglePlatform | backend/server.py:623-634 | a canned platform page lists only the requested platform, at base URL / type / id |
| Endpoints.LiveFilterMissListsOtherPlatforms | backend/server.py:543-571 | a live item of a type the filtered platform lacks still lists at least two other platforms |
| FormUrlEncoded.EncodeChar | frontend/src/components/Header.js:13-17 | UTF-8 of one scalar value: 1 to 4 bytes, ASCII as itself, continuation bytes after a lead byte |
| FormUrlEncoded.Utf8RoundTrip | frontend/src/components/Header.js:13-17 | UTF-8 decoding undoes encoding |
| FormUrlEncoded.PercentRoundTrip | frontend/src/components/Header.js:13-17 | percent-decoding (with `+` as space) undoes the serializer's byte encoding |
| FormUrlEncoded.ComponentRoundTrip | frontend/src/components/Header.js:13-17 | a name or value reads back as written |
| FormUrlEncoded.SerializeIsAscii | frontend/src/components/Header.js:17 | the serialized query is ASCII |
| FormUrlEncoded.ParseSerialize | frontend/src/pages/SearchResults.js:37-44 | parsing a serialized query, with or without the leading `?`, gives back the same pairs in order |
| FormUrlEncoded.SerializeHasNoQuestionMark | frontend/src/components/Header.js:17 | the serialized query contains no `?`, so the router splits the target where the page put the `?` |
| UrlSearchParams.Lookup | frontend/src/pages/SearchResults.js:42-44 | `get`: present exactly when some pair has the name, and then the first such value |
| UrlSearchParams.Without | frontend/src/pages/SearchResults.js:74-81 | `delete` leaves no pair with the name |
| UrlSearchParams.WithoutMembers | frontend/src/pages/SearchResults.js:74-81 | `delete` keeps exactly the pairs with other names |
| UrlSearchParams.LookupAfterSet | frontend/src/pages/SearchResults.js:68-71 | after `set`, `get` answers the new value |
| UrlSearchParams.SetLeavesOnePair | frontend/src/pages/SearchResults.js:68-71 | `set` leaves exactly one pair with the name |
| UrlSearchParams.WithoutIdempotent | frontend/src/pages/SearchResults.js:74-81 | deleting twice changes nothing more |
| UrlSearchParams.SetKeepsOthers | frontend/src/pages/SearchResults.js:68-81 | `set` leaves the other pairs as they were, in order |
| UrlSearchParams.WithoutCommutes | frontend/src/pages/SearchResults.js:74-81 | deleting two names commutes |
| UrlSearchParams.LookupOtherAfterSet | frontend/src/pages/SearchResults.js:68-71 | `get` of another name does not see `set` |
| UrlSearchParams.LookupOtherAfterWithout | frontend/src/pages/SearchResults.js:74-81 | `get` of another name does not see `delete` |
| UrlSearchParams.LookupAfterWithout | frontend/src/pages/SearchResults.js:74-81 | after `delete`, `get` answers nothing |
| UrlSearchParams.SearchParams.Append | frontend/src/pages/SearchResults.js:17-19 | `append` adds the pair at the end |
| UrlSearchParams.SearchParams.Set | frontend/src/pages/SearchResults.js:68-71 | `set`, one pass over the list, leaves the list `SetValue` describes |
| UrlSearchParams.SearchParams.Delete | frontend/src/pages/SearchResults.js:74-81 | `delete`, one pass over the list, leaves the list `Without` describes |
| JsString.Trim | frontend/src/components/Header.js:12-14 | the infix between trimmable prefix and suffix, with no trimmable code point at either end |
| JsString.TrimEmptyIffBlank | frontend/src/components/Header.js:12 | a query trims to nothing exactly when it is all white space |
| JsString.TrimIdempotent | frontend/src/components/Header.js:14 | trimming the trimmed query changes nothing |
| Navigation.ButtonType | frontend/src/components/Header.js:46-69 | each content-type button selects its own value |
| Navigation.ToLocation | frontend/src/components/Header.js:17 | the router splits a target at its first `?` into a path without `?` and the search |
| Navigation.TargetLocation | frontend/src/components/Header.js:17 | `/search?` plus a serialized query lands on `/search` with exactly those pairs |
| StableSort.SortIsSorted | frontend/src/pages/SearchResults.js:88-101 | the sorted list has non-increasing keys and the same length |
| StableSort.SortIsPermutation | frontend/src/pages/SearchResults.js:87-101 | sorting is a permutation |
| StableSort.SortIsStable | frontend/src/pages/SearchResults.js:88-101 | items with equal keys keep their relative order |
| StableSort.SortOfSorted | frontend/src/pages/SearchResults.js:88-101 | an input already in order is unchanged |
| StableSort.StableSortUnique | frontend/src/pages/SearchResults.js:88-101 | two sorted lists with the same items per key, in the same order, are equal |
| StableSort.EngineSortIsInsertionSort | frontend/src/pages/SearchResults.js:88-101 | whatever stable sort the engine runs, its result is the insertion sort |
| StableSort.SortInPlace | frontend/src/pages/SearchResults.js:88-101 | the array ends up holding the insertion sort of its old contents |
| StableSort.InsertLast | frontend/src/pages/SearchResults.js:88-101 | one element moves left into the sorted prefix, the rest of the array untouched |
| SearchResults.DeriveQuery | frontend/src/pages/SearchResults.js:42-44 | `q` defaults to "", `content_type` to "multi", and a falsy platform to no filter. Each default applies exactly when the parameter is falsy |
| SearchResults.RequestParams | frontend/src/pages/SearchResults.js:11-19 | q, page and content_type are always sent; platform only when truthy |
| SearchResults.BuildRequestParams | frontend/src/pages/SearchResults.js:11-19 | a `URLSearchParams` of the three entries, with `append` of a truthy platform, holds exactly RequestParams |
| SearchResults.RequestRoundTrip | frontend/src/pages/SearchResults.js:11-21 | the server reads back the text, the type, the page number and the platform's presence |
| SearchResults.FetchSearchResults | frontend/src/pages/SearchResults.js:10-26 | an error "Failed to search content" exactly for a response that is not ok, else its body |
| SearchResults.SortedResults | frontend/src/pages/SearchResults.js:84-103 | [] without results; otherwise a permutation. The order is unchanged for "relevance" and unknown options. For rating, year or popularity it is sorted descending and stable, equal to the insertion sort |
| SearchResults.UndatedSortLast | frontend/src/pages/SearchResults.js:93-96 | under "year", when every real date is later than 1900-01-01, items with no date come after all dated items |
| SearchResults.ContentTypeLabel | frontend/src/pages/SearchResults.js:105-111 | "Movies", "TV Shows", or "Movies & TV Shows" for everything else |
| SearchResults.InheritedName | frontend/src/pages/SearchResults.js:115 | `obj[key]?.name` for a key the parsed object does not own: "Object" for `constructor`, the key itself for the other inherited `Object.prototype` methods, nothing otherwise |
| SearchResults.PlatformName | frontend/src/pages/SearchResults.js:113-116 | nothing without a filter or a catalogue; the catalogue name of the filtered entry when there is one; otherwise the inherited member's name, so exactly those keys give a label |
| SearchResults.InheritedFilterNames | frontend/src/pages/SearchResults.js:115 | for a key the catalogue lacks, `platform=constructor` shows "Object", an inherited method shows its own name, and any other key shows no name |
| SearchResults.PaginationFor | frontend/src/pages/SearchResults.js:290-327 | the bar shows for more than one page, with buttons 1..min(5, pages). Previous is disabled exactly on page 1, Next exactly on the last page |
| SearchResults.PaginationStaysInRange | frontend/src/pages/SearchResults.js:290-327 | every enabled control leads to a page within range |
| SearchResults.RenderResults | frontend/src/pages/SearchResults.js:118-128 | shows the prompt exactly for an empty query, then spinner, error and empty notice in that order, otherwise the cards, with the bar exactly for more than one page |
| SearchResults.ContentTypeChangeQuery | frontend/src/pages/SearchResults.js:68-72 | choosing a type changes the derived type and no other parameter |
| SearchResults.PlatformChangeQuery | frontend/src/pages/SearchResults.js:74-82 | choosing a platform sets the derived filter; "all" or "" removes it; no other parameter changes |
| SearchResults.PlatformThenAll | frontend/src/pages/SearchResults.js:74-82 | a platform then "All Platforms" leaves no filter |
| SearchResults.SearchResultsPage.constructor | frontend/src/pages/SearchResults.js:37-40 | mounting parses the search string, page 1, sort "relevance", filters hidden, no reset pending |
| SearchResults.SearchResultsPage.Request | frontend/src/pages/SearchResults.js:46-51 | no request exactly for an empty query; otherwise the search URL of the current search at the current page |
| SearchResults.SearchResultsPage.SetSearchParams | frontend/src/pages/SearchResults.js:37 | the new parameters are read back as written. The page is untouched, so the next render requests the new search at the old page. A reset is left pending exactly when the derived search changed |
| SearchResults.SearchResultsPage.RunResetEffect | frontend/src/pages/SearchResults.js:59-61 | the effect puts the page back to 1 exactly when the search differs from the one it last ran for, and leaves nothing pending |
| SearchResults.TypeChangeRequestsOldPage | frontend/src/pages/SearchResults.js:46-51 | the render after a content-type change sends the new type with the page number still in place |
| SearchResults.SearchResultsPage.HandleContentTypeChange | frontend/src/pages/SearchResults.js:68-72 | `content_type` set on a copy. Page, sort and filter panel are unchanged until the effect runs, and a reset is pending exactly when the search changed |
| SearchResults.SearchResultsPage.HandlePlatformChange | frontend/src/pages/SearchResults.js:74-82 | `platform` set, or deleted for "all" or "", on a copy. Page, sort and filter panel are unchanged until the effect runs, and a reset is pending exactly when the search changed |
| SearchResults.SearchResultsPage.HandlePageChange | frontend/src/pages/SearchResults.js:63-66 | only the page changes |
| SearchResults.SearchResultsPage.SetSortBy | frontend/src/pages/SearchResults.js:199-208 | only the sort option changes |
| SearchResults.SearchResultsPage.ToggleFilters | frontend/src/pages/SearchResults.js:188-189 | only the filter panel flips |
| Header.SearchTarget | frontend/src/components/Header.js:10-19 | nothing for a blank query; otherwise `/search` carrying exactly the trimmed text and the type |
| Header.SearchBar.constructor | frontend/src/components/Header.js:6-7 | empty text, type "multi" |
| Header.SearchBar.SetSearchQuery | frontend/src/components/Header.js:86-87 | the field keeps the text as typed |
| Header.SearchBar.Select | frontend/src/components/Header.js:46-69 | a button sets its type and leaves the text |
| Header.SearchBar.HandleSearch | frontend/src/components/Header.js:10-19 | submitting yields the target of the current text and type |
| PlatformGrid.ClickTarget | frontend/src/components/PlatformGrid.js:27-34 | `/search` carrying q "popular", the platform and the type, in that order |
| PlatformGrid.PlatformGridState.constructor | frontend/src/components/PlatformGrid.js:19 | type "multi" |
| PlatformGrid.PlatformGridState.Select | frontend/src/components/PlatformGrid.js:75-98 | a button sets its type |
| PlatformGrid.PlatformGridState.HandlePlatformClick | frontend/src/components/PlatformGrid.js:27-34 | a click yields the target for that platform and the current type |
| PlatformGrid.PlatformIcon | frontend/src/components/PlatformGrid.js:36-44 | both icons exactly for movies and TV, the TV icon for TV alone, the film icon exactly when TV is absent |
| PlatformGrid.CardFor | frontend/src/components/PlatformGrid.js:114-157 | name and description of the entry; the Movies and TV badges exactly when the entry lists those types |
| PlatformGrid.Render | frontend/src/components/PlatformGrid.js:46-65 | the spinner while loading, then the error, otherwise one card per entry in order, none without data |
| ContentCard.DisplayDate | frontend/src/components/ContentCard.js:26-31 | the first air date for TV, the release date otherwise |
| ContentCard.FormatDate | frontend/src/components/ContentCard.js:15-17 | "N/A" exactly for a missing or empty date, otherwise the year |
| ContentCard.FormatVoteCount | frontend/src/components/ContentCard.js:19-24 | below 1000 exactly, the count's own decimal text (no leading zeros); thousands otherwise |
| ContentCard.SeasonInfo | frontend/src/components/ContentCard.js:33-38 | present exactly for TV with a truthy season count; then exactly "N Season" for N <= 1 and "N Seasons" for N > 1 |
| ContentCard.SeasonBlockFor | frontend/src/components/ContentCard.js:105-113 | the season line, and an episode entry exactly when the count is truthy, reading "• N Episodes" (the intended bullet) |
| ContentCard.EpisodesNodeAsWritten | frontend/src/components/ContentCard.js:109-111 | as written: something is rendered whenever a count is present, and a truthy count renders as "â€¢ N Episodes", the separator as the file stores it |
| ContentCard.MisEncodedSeparatorShows | frontend/src/components/ContentCard.js:110 | for every truthy count the text as written opens with "â€¢" where the bullet belongs, so it differs from the intended entry |
| ContentCard.ZeroEpisodesShowsStrayZero | frontend/src/components/ContentCard.js:109-111 | a count of 0 renders "0" as written, where the corrected block shows nothing |
| ContentCard.PlatformCountLabel | frontend/src/components/ContentCard.js:130 | exactly "Watch Free On 1 Platform:" for one platform, otherwise "Watch Free On N Platforms:", a missing list counting as 0 |
| ContentCard.ShownPlatforms | frontend/src/components/ContentCard.js:133-143 | the first min(3, n) platforms |
| ContentCard.MoreBadge | frontend/src/components/ContentCard.js:144-148 | "+k more" exactly for more than three platforms, with k the rest |
| ContentCard.ShownGenres | frontend/src/components/ContentCard.js:117 | the first min(3, n) genre names |
| ContentCard.TypeBadgeFor | frontend/src/components/ContentCard.js:55-65 | the TV badge exactly for "tv" |
| ContentCard.FilteredResultCard | frontend/src/components/ContentCard.js:130-156 | a filtered backend result shows one button for that platform, "1 Platform:", no badge, no searching note |
| HeroSection.NextIndexCases | frontend/src/components/HeroSection.js:32-35 | next moves one slide on, from the last back to the first |
| HeroSection.PreviousIndexCases | frontend/src/components/HeroSection.js:27-30 | previous moves one slide back, from the first round to the last |
| HeroSection.StepsStayInRange | frontend/src/components/HeroSection.js:27-35 | both steps keep the index in range |
| HeroSection.PreviousUndoesNext | frontend/src/components/HeroSection.js:27-35 | previous undoes next and next undoes previous |
| HeroSection.AdvanceWithinRound | frontend/src/components/HeroSection.js:13-14 | up to a full round, k ticks land k slides on, wrapping once |
| HeroSection.FullCycle | frontend/src/components/HeroSection.js:13-14 | as many ticks as slides come back to the start |
| HeroSection.HeroCarousel.constructor | frontend/src/components/HeroSection.js:6-7 | index 0, autoplay on |
| HeroSection.HeroCarousel.GoToNext | frontend/src/components/HeroSection.js:32-35 | the next index, autoplay off, index kept in range |
| HeroSection.HeroCarousel.GoToPrevious | frontend/src/components/HeroSection.js:27-30 | the previous index, autoplay off, index kept in range |
| HeroSection.HeroCarousel.GoToSlide | frontend/src/components/HeroSection.js:20-25 | jump to the dot's slide, autoplay off |
| HeroSection.HeroCarousel.ResumeAutoPlay | frontend/src/components/HeroSection.js:24 | autoplay back on, same slide |
| HeroSection.HeroCarousel.Tick | frontend/src/components/HeroSection.js:10-18 | the interval fires exactly while autoplay is on and there are slides, and moves to the next slide |
| HeroSection.WatchNowTarget | frontend/src/components/HeroSection.js:37-45 | the first platform's URL exactly when the movie has one |
| HeroSection.Render | frontend/src/components/HeroSection.js:47-166 | the placeholder exactly for no movies; otherwise the current movie, two genres, three platforms and one dot per slide with exactly the current one lit |
| RoundTrips.HeaderSearchLands | frontend/src/components/Header.js:10-19 | a header search lands on the results page with the trimmed text, the type ("multi" for an empty one) and no platform |
| RoundTrips.HeaderButtonLands | frontend/src/components/Header.js:46-69 | the results page shows the type of the button pressed |
| RoundTrips.PlatformClickLands | frontend/src/components/PlatformGrid.js:27-34 | a platform click lands on a "popular" search with the type and, for a non-empty key, that platform as filter |
| RoundTrips.PlatformClickRequest | frontend/src/pages/SearchResults.js:11-21 | after a platform click the backend reads back "popular", the platform, the type and page 1 |

## Left out

- HTTP, TMDB requests, MongoDB, CORS, logging and the FastAPI/pydantic validation layer are not modelled. A TMDB page enters as a parameter. An exception from the HTTP call is the same as having no TMDB answer.
- `_mock_trending_response` and the trending route's canned path are not modelled. Only the trending result loop is.
- Random choices (`random.sample`, `random.randint`, `random.choice`) are nondeterministic choices within the source's bounds. Specific outputs are not modelled.
- Availability.GetPlatformAvailability: Python's `ValueError` from `random.randint(2, 1)` is an error result, which the shaping loop passes up.
- Floating point: `vote_average` is a whole number of tenths on both the live and the canned path, so TMDB averages with more than one decimal are not represented exactly. `formatRating` is not modelled. FormatVoteCount: the digits of the thousands form (`toFixed(1)`) are not modelled.
- Date parsing (`new Date(…)`, `getFullYear`) is the parameter `dateValue` or `yearOf`. Invalid dates (NaN in JavaScript comparisons) are not modelled.
- SearchResults.SortedResults: the comparator's NaN behaviour for invalid dates is not modelled, because dates enter through an integer-valued parameter.
- React Query's caching, retries, `keepPreviousData` and `staleTime` are not modelled. A fetch is the parameter `fetch`, and loading and error states are booleans.
- The carousel's timers are not modelled. `Tick` stands for one firing of the interval and `ResumeAutoPlay` for the ten-second timeout. A props change that shrinks the movie list while the index is out of range is not modelled: HeroSection.Render requires an index within range, as the source does by reading `movies[currentIndex]`.
- `window.open`, `window.scrollTo`, toasts, images and styling are not modelled.
- Strings are sequences of Unicode scalar values. JavaScript strings are UTF-16 and may hold lone surrogates, which the URLSearchParams serializer replaces with U+FFFD. That case is not modelled.
- URL fragments are not modelled. Malformed UTF-8 is decoded with one replacement character per offending byte, not per maximal subpart.
- MovieCard, Footer, App, Home, MovieDetails, Platforms and the frontend API module are not part of this model.
- The year-range and minimum-rating filter inputs of the results page are not modelled. They do not take part in the request or the sort.

## Findings

| source | as written | input that shows it | evidently intended | confidence | as-written member | corrected member |
|---|---|---|---|---|---|---|
| frontend/src/components/ContentCard.js:109-111 | `content.episodes && <span>…</span>` renders the number itself when the count is 0 | a TV item with `seasons: 2, episodes: 0` (a show whose episodes are not yet listed) shows "2 Seasons 0" | no episode count shown for 0 | medium, not executed | ContentCard.EpisodesNodeAsWritten, ContentCard.ZeroEpisodesShowsStrayZero | ContentCard.SeasonBlockFor |
| frontend/src/components/ContentCard.js:110 | the separator before the episode count is stored as the UTF-8 bytes of "•" re-encoded once more, i.e. the characters "â€¢" | a TV item with `seasons: 2, episodes: 12` shows "â€¢ 12 Episodes" | "• 12 Episodes" | high, not executed | ContentCard.EpisodesNodeAsWritten, ContentCard.MisEncodedSeparatorShows | ContentCard.SeasonBlockFor |

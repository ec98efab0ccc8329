/** The platform browser (frontend/src/components/PlatformGrid.js): one card
    per catalogue entry with an icon and badges for the content types, a
    content-type selector, and a click that opens the results page for
    "popular" on that platform. */
module PlatformGrid {
  import opened Common
  import opened Catalogue
  import opened FormUrlEncoded
  import opened UrlSearchParams
  import opened Navigation

  /** `handlePlatformClick`: `/search` with q "popular", the platform and the
      selected content type, in that order. */
  function ClickTarget(platformKey: string, contentType: string): (url: string)
    ensures ToLocation(url).pathname == "/search"
    ensures Parse(ToLocation(url).search) == [("q", "popular"), ("platform", platformKey), ("content_type", contentType)]
  {
    TargetLocation("/search", [("q", "popular"), ("platform", platformKey), ("content_type", contentType)]);
    "/search" + "?" + Serialize([("q", "popular"), ("platform", platformKey), ("content_type", contentType)])
  }

  /** The grid's one piece of state. */
  class PlatformGridState {
    var selectedContentType: string

    constructor()
      ensures selectedContentType == "multi"
    {
      selectedContentType := "multi";
    }

    /** A content-type button. */
    method Select(b: TypeButton)
      modifies this
      ensures selectedContentType == ButtonType(b)
    {
      selectedContentType := ButtonType(b);
    }

    /** Clicking a card. */
    method HandlePlatformClick(platformKey: string) returns (url: string)
      ensures url == ClickTarget(platformKey, selectedContentType)
    {
      var params := new SearchParams.FromPairs(
        [("q", "popular"), ("platform", platformKey), ("content_type", selectedContentType)]);
      TargetLocation("/search", params.list);
      url := "/search" + "?" + params.ToString();
    }
  }

  datatype Icon = FilmAndTv | TvOnly | FilmOnly

  /** `getPlatformIcon`: both icons when the platform has movies and TV, the
      TV icon for TV without movies, the film icon otherwise. */
  function PlatformIcon(contentTypes: seq<string>): (icon: Icon)
    ensures icon == FilmAndTv <==> "movie" in contentTypes && "tv" in contentTypes
    ensures icon == TvOnly <==> "tv" in contentTypes && "movie" !in contentTypes
    ensures icon == FilmOnly <==> "tv" !in contentTypes
  {
    if "movie" in contentTypes && "tv" in contentTypes then FilmAndTv
    else if "tv" in contentTypes then TvOnly
    else FilmOnly
  }

  /** One card of the grid. */
  datatype Card = Card(key: string, name: string, description: string, icon: Icon, moviesBadge: bool, tvBadge: bool)

  /** The card for one entry: the Movies and TV badges show exactly when the
      entry lists those types. */
  function CardFor(key: string, info: PlatformInfo): (card: Card)
    ensures card.key == key && card.name == info.name && card.description == info.description
    ensures card.moviesBadge <==> "movie" in info.contentTypes
    ensures card.tvBadge <==> "tv" in info.contentTypes
    ensures card.icon == FilmAndTv <==> card.moviesBadge && card.tvBadge
  {
    Card(key, info.name, info.description, PlatformIcon(info.contentTypes),
         "movie" in info.contentTypes, "tv" in info.contentTypes)
  }

  /** The decoded `/api/platforms` body: the catalogue's entries in order,
      or nothing when the field is absent. */
  datatype PlatformsData = PlatformsData(platforms: Option<seq<(string, PlatformInfo)>>)

  datatype GridView = Loading | LoadFailed | Grid(cards: seq<Card>)

  /** `platformsData?.platforms || {}`. */
  function Entries(data: Option<PlatformsData>): seq<(string, PlatformInfo)> {
    if data.Some? && data.value.platforms.Some? then data.value.platforms.value else []
  }

  /** Loading first, then the error, then one card per entry. */
  function Render(isLoading: bool, failed: bool, data: Option<PlatformsData>): (view: GridView)
    ensures view.Loading? <==> isLoading
    ensures view.LoadFailed? <==> !isLoading && failed
    ensures view.Grid? ==> |view.cards| == |Entries(data)|
    ensures view.Grid? ==> forall i :: 0 <= i < |view.cards| ==>
      view.cards[i] == CardFor(Entries(data)[i].0, Entries(data)[i].1)
    ensures view.Grid? && (data.None? || data.value.platforms.None?) ==> view.cards == []
  {
    if isLoading then Loading
    else if failed then LoadFailed
    else
      var entries := Entries(data);
      Grid(seq(|entries|, i requires 0 <= i < |entries| => CardFor(entries[i].0, entries[i].1)))
  }
}

/** The display rules of a content card (frontend/src/components/ContentCard.js):
    which date it shows, the season line, the vote count, the type badge and
    how many genres and platform buttons it shows. */
module ContentCard {
  import opened Common
  import opened Catalogue
  import opened Availability
  import opened Enhance
  import opened ContentJson

  /** `getDisplayDate`: the first air date for TV, the release date otherwise. */
  function DisplayDate(c: Content): (date: Option<string>)
    ensures c.contentType == Some("tv") ==> date == c.firstAirDate
    ensures c.contentType != Some("tv") ==> date == c.releaseDate
  {
    if c.contentType == Some("tv") then c.firstAirDate else c.releaseDate
  }

  /** `formatDate`: "N/A" for a missing or empty date, otherwise the year,
      which `yearOf` stands for (`new Date(date).getFullYear()`). */
  function FormatDate(date: Option<string>, yearOf: string -> int): (text: string)
    ensures text == "N/A" <==> !Truthy(date)
    ensures Truthy(date) ==> text == IntToString(yearOf(date.value))
  {
    if Truthy(date) then IntToString(yearOf(date.value)) else "N/A"
  }

  /** The two shapes of `formatVoteCount`: the count itself below 1000, and
      thousands with one decimal (whose digits are not modelled) from 1000. */
  datatype VoteCountText = Exact(text: string) | Thousands(count: int)

  function FormatVoteCount(count: int): (r: VoteCountText)
    ensures r.Exact? <==> count < 1000
    ensures r.Exact? && count >= 0 ==> AllDigits(r.text) && ParseNat(r.text) == count
    ensures r.Exact? ==> r.text == IntToString(count)
    ensures r.Thousands? ==> r.count == count
  {
    if count >= 1000 then Thousands(count) else Exact(IntToString(count))
  }

  /** JavaScript truthiness of an optional number. */
  predicate TruthyNumber(n: Option<int>) {
    n.Some? && n.value != 0
  }

  /** `getSeasonInfo`: "N Season", with an "s" exactly when N > 1, for a TV
      item with a truthy season count; nothing otherwise. */
  function SeasonInfo(c: Content): (info: Option<string>)
    ensures info.Some? <==> c.contentType == Some("tv") && TruthyNumber(c.seasons)
    ensures info.Some? ==>
      var head := IntToString(c.seasons.value) + " Season";
      |head| <= |info.value| <= |head| + 1 && info.value[..|head|] == head
    ensures info.Some? ==> (info.value[|info.value| - 1] == 's' <==> c.seasons.value > 1)
    ensures info.Some? && c.seasons.value <= 1 ==> info.value == IntToString(c.seasons.value) + " Season"
    ensures info.Some? && c.seasons.value > 1 ==> info.value == IntToString(c.seasons.value) + " Seasons"
  {
    if c.contentType == Some("tv") && TruthyNumber(c.seasons) then
      var n := c.seasons.value;
      Some(IntToString(n) + " Season" + (if n > 1 then "s" else ""))
    else None
  }

  /** The separator before the episode count as the file stores it: the
      bullet U+2022 encoded in UTF-8 and then decoded as Windows-1252, so the
      page shows the three characters U+00E2 U+20AC U+00A2. */
  const SeparatorAsWritten: string := "\U{00E2}\U{20AC}\U{00A2} "

  /** The separator evidently meant: the bullet U+2022 and a space. */
  const Separator: string := "\U{2022} "

  /** The season block: the season line, and the episode count when truthy. */
  datatype SeasonBlock = SeasonBlock(seasons: string, episodes: Option<string>)

  function SeasonBlockFor(c: Content): (block: Option<SeasonBlock>)
    ensures block.Some? <==> c.contentType == Some("tv") && TruthyNumber(c.seasons)
    ensures block.Some? ==> Some(block.value.seasons) == SeasonInfo(c)
    ensures block.Some? ==> (block.value.episodes.Some? <==> TruthyNumber(c.episodes))
    ensures block.Some? && TruthyNumber(c.episodes) ==>
      block.value.episodes == Some(Separator + IntToString(c.episodes.value) + " Episodes")
  {
    var info := SeasonInfo(c);
    if c.contentType == Some("tv") && info.Some? then
      Some(SeasonBlock(info.value,
                       if TruthyNumber(c.episodes) then Some(Separator + IntToString(c.episodes.value) + " Episodes") else None))
    else None
  }

  /** The episode part of the season block as written, `content.episodes &&
      <span>…</span>`: React renders a falsy number operand itself, so a
      count of 0 shows a bare "0" instead of nothing, and a truthy count is
      preceded by the mis-encoded separator. */
  function EpisodesNodeAsWritten(episodes: Option<int>): (node: Option<string>)
    ensures node.Some? <==> episodes.Some?
    ensures TruthyNumber(episodes) ==> node == Some(SeparatorAsWritten + IntToString(episodes.value) + " Episodes")
  {
    if episodes.None? then None
    else if episodes.value == 0 then Some(IntToString(0))
    else Some(SeparatorAsWritten + IntToString(episodes.value) + " Episodes")
  }

  /** A TV show with seasons but no episodes yet shows a stray "0" as
      written, where the block of `SeasonBlockFor` shows no episode count. */
  lemma ZeroEpisodesShowsStrayZero(c: Content)
    requires c.contentType == Some("tv") && TruthyNumber(c.seasons) && c.episodes == Some(0)
    ensures EpisodesNodeAsWritten(c.episodes) == Some("0")
    ensures SeasonBlockFor(c).Some? && SeasonBlockFor(c).value.episodes.None?
  {
    assert IntToString(0) == NatToString(0);
  }

  /** For every truthy episode count the text as written differs from the
      intended one: it opens with three stray characters where the bullet
      belongs, and is two characters longer. */
  lemma MisEncodedSeparatorShows(c: Content)
    requires c.contentType == Some("tv") && TruthyNumber(c.seasons) && TruthyNumber(c.episodes)
    ensures var written := EpisodesNodeAsWritten(c.episodes).value;
      var meant := SeasonBlockFor(c).value.episodes.value;
      written[..3] == "\U{00E2}\U{20AC}\U{00A2}" && meant[0] == '\U{2022}' &&
      |written| == |meant| + 2 && written != meant
  {
    var written := EpisodesNodeAsWritten(c.episodes).value;
    var meant := SeasonBlockFor(c).value.episodes.value;
    assert written[0] == '\U{00E2}' && meant[0] == '\U{2022}';
  }

  /** `content.platforms?.length || 0`. */
  function PlatformCount(c: Content): nat {
    if c.platforms.Some? then |c.platforms.value| else 0
  }

  /** "Watch Free On N Platform(s):": the count, a missing list counting as
      0, and "Platforms" exactly when the length is not 1 (a missing list's
      undefined length is not 1). */
  function PlatformCountLabel(c: Content): (text: string)
    ensures var head := "Watch Free On " + IntToString(PlatformCount(c)) + " Platform";
      |head| + 1 <= |text| <= |head| + 2 && text[..|head|] == head && text[|text| - 1] == ':'
    ensures text[|text| - 2] == 's' <==> PlatformCount(c) != 1
    ensures PlatformCount(c) == 1 ==> text == "Watch Free On 1 Platform:"
    ensures PlatformCount(c) != 1 ==> text == "Watch Free On " + IntToString(PlatformCount(c)) + " Platforms:"
  {
    "Watch Free On " + IntToString(PlatformCount(c)) + " Platform" + (if PlatformCount(c) != 1 then "s" else "") + ":"
  }

  /** The platform buttons: the first three of the list, none without one. */
  function ShownPlatforms(c: Content): (shown: seq<PlatformLink>)
    ensures |shown| == Min(3, PlatformCount(c))
    ensures c.platforms.Some? ==> shown == c.platforms.value[..|shown|]
  {
    if c.platforms.None? then []
    else if |c.platforms.value| <= 3 then c.platforms.value
    else c.platforms.value[..3]
  }

  /** The "+N more" badge: present exactly when there are more than three
      platforms, counting the rest. */
  function MoreBadge(c: Content): (more: Option<nat>)
    ensures more.Some? <==> PlatformCount(c) > 3
    ensures more.Some? ==> more.value + 3 == PlatformCount(c)
  {
    if c.platforms.Some? && |c.platforms.value| > 3 then Some(|c.platforms.value| - 3) else None
  }

  /** "Searching for free streaming options...": only for a list that is
      present and empty. */
  predicate SearchingNote(c: Content) {
    c.platforms == Some([])
  }

  /** The genre chips: the first three names, none without a list. */
  function ShownGenres(c: Content): (shown: seq<string>)
    ensures |shown| <= 3
    ensures c.genreNames.None? ==> shown == []
    ensures c.genreNames.Some? ==> |shown| == Min(3, |c.genreNames.value|) && shown == c.genreNames.value[..|shown|]
  {
    if c.genreNames.None? then []
    else if |c.genreNames.value| <= 3 then c.genreNames.value
    else c.genreNames.value[..3]
  }

  datatype TypeBadge = TvBadge | MovieBadge

  /** The corner badge: TV exactly for "tv", Movie for everything else. */
  function TypeBadgeFor(c: Content): (badge: TypeBadge)
    ensures badge == TvBadge <==> c.contentType == Some("tv")
  {
    if c.contentType == Some("tv") then TvBadge else MovieBadge
  }

  /** A backend result for a platform filter that serves the item's type
      shows one button, reads "1 Platform", and has neither the badge nor
      the searching note. */
  lemma {:induction false} FilteredResultCard(cat: Catalogue, item: RawItem, key: string, r: ContentResult)
    requires EnhancedFrom(cat, item, Some(key), r)
    requires FilterHit(cat, InferContentType(item), Some(key))
    ensures |ShownPlatforms(FromResult(r))| == 1 && ShownPlatforms(FromResult(r))[0].platform == key
    ensures PlatformCountLabel(FromResult(r)) == "Watch Free On 1 Platform:"
    ensures MoreBadge(FromResult(r)).None? && !SearchingNote(FromResult(r))
  {
    var c := FromResult(r);
    assert |r.platforms| == 1;
    assert PlatformCount(c) == 1;
    assert IntToString(1) == "1";
  }
}

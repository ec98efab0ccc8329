/** The content items the React pages receive from the API: the JSON of a
    backend ContentResult, read defensively (`content.platforms?.length`), so
    every field the pages test for presence is optional here. */
module ContentJson {
  import opened Common
  import opened Availability
  import opened Enhance

  datatype Content = Content(
    id: int,
    title: Option<string>,
    contentType: Option<string>,
    releaseDate: Option<string>,
    firstAirDate: Option<string>,
    voteAverage: int,  // in tenths, as in the backend result
    voteCount: int,
    genreNames: Option<seq<string>>,
    platforms: Option<seq<PlatformLink>>,
    seasons: Option<int>,
    episodes: Option<int>)

  /** The item a backend result arrives as: every list and the content type
      present. */
  function FromResult(c: ContentResult): (item: Content)
    ensures item.id == c.id && item.contentType == Some(c.contentType)
    ensures item.platforms == Some(c.platforms) && item.genreNames == Some(c.genreNames)
    ensures item.voteAverage == c.voteAverage && item.voteCount == c.voteCount
  {
    Content(c.id, c.title, Some(c.contentType), c.releaseDate, c.firstAirDate, c.voteAverage, c.voteCount,
            Some(c.genreNames), Some(c.platforms), c.seasons, c.episodes)
  }
}

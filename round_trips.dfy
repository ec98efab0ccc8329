/** How the pages hand a search to each other: the header and the platform
    grid write a query string that the results page reads back with its
    defaults, and the results page's request carries that search to the
    backend. */
module RoundTrips {
  import opened Common
  import opened FormUrlEncoded
  import opened UrlSearchParams
  import opened JsString
  import opened Navigation
  import opened SearchResults
  import opened Header
  import opened PlatformGrid

  /** The query the results page derives when it opens at `url`. */
  function Landing(url: string): Query {
    DeriveQuery(Parse(ToLocation(url).search))
  }

  /** A header search lands on the results page with the trimmed text, the
      chosen content type ("multi" in place of an empty one) and no platform
      filter. */
  lemma HeaderSearchLands(searchQuery: string, contentType: string)
    requires !AllTrimmable(searchQuery)
    ensures SearchTarget(searchQuery, contentType).Some?
    ensures Landing(SearchTarget(searchQuery, contentType).value) ==
      Query(Trim(searchQuery), if contentType == "" then "multi" else contentType, None)
  {
    var params := [("q", Trim(searchQuery)), ("content_type", contentType)];
    TrimEmptyIffBlank(searchQuery);
    assert Lookup(params[1..], "content_type") == Some(contentType);
    assert Lookup(params[1..], "platform") == None;
  }

  /** Whichever header button was pressed, the results page shows that
      content type. */
  lemma HeaderButtonLands(searchQuery: string, b: TypeButton)
    requires !AllTrimmable(searchQuery)
    ensures Landing(SearchTarget(searchQuery, ButtonType(b)).value).contentType == ButtonType(b)
  {
    HeaderSearchLands(searchQuery, ButtonType(b));
  }

  /** A platform card lands on the results page searching "popular" with the
      selected content type and that platform as filter. */
  lemma PlatformClickLands(platformKey: string, contentType: string)
    ensures Landing(ClickTarget(platformKey, contentType)) ==
      Query("popular", if contentType == "" then "multi" else contentType,
            if platformKey == "" then None else Some(platformKey))
  {
    var params := [("q", "popular"), ("platform", platformKey), ("content_type", contentType)];
    assert Lookup(params[1..], "platform") == Some(platformKey);
    assert Lookup(params[2..], "content_type") == Some(contentType);
    assert Lookup(params[1..], "content_type") == Some(contentType);
  }

  /** After a platform click the results page asks the backend for page 1 of
      "popular" on that platform, and the backend reads those values back. */
  lemma PlatformClickRequest(platformKey: string, b: TypeButton)
    requires platformKey != ""
    ensures var query := Landing(ClickTarget(platformKey, ButtonType(b)));
      var sent := Parse(Serialize(RequestParams(query.q, 1, query.contentType, query.platform)));
      && Lookup(sent, "q") == Some("popular")
      && Lookup(sent, "platform") == Some(platformKey)
      && Lookup(sent, "content_type") == Some(ButtonType(b))
      && Lookup(sent, "page") == Some("1")
  {
    PlatformClickLands(platformKey, ButtonType(b));
    var query := Landing(ClickTarget(platformKey, ButtonType(b)));
    ParseSerialize(RequestParams(query.q, 1, query.contentType, query.platform));
    assert IntToString(1) == "1";
  }
}

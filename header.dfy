/** The header's search form (frontend/src/components/Header.js): the text
    field, the content-type buttons and the submit that navigates to the
    results page. */
module Header {
  import opened Common
  import opened FormUrlEncoded
  import opened UrlSearchParams
  import opened JsString
  import opened Navigation

  /** `handleSearch`: nothing for a blank query; otherwise `/search` with
      the trimmed text and the selected content type. */
  function SearchTarget(searchQuery: string, contentType: string): (url: Option<string>)
    ensures url.None? <==> AllTrimmable(searchQuery)
    ensures url.Some? ==> ToLocation(url.value).pathname == "/search"
    ensures url.Some? ==> Parse(ToLocation(url.value).search) == [("q", Trim(searchQuery)), ("content_type", contentType)]
  {
    TrimEmptyIffBlank(searchQuery);
    if Trim(searchQuery) == "" then None
    else
      TargetLocation("/search", [("q", Trim(searchQuery)), ("content_type", contentType)]);
      Some("/search" + "?" + Serialize([("q", Trim(searchQuery)), ("content_type", contentType)]))
  }

  /** The form's state. */
  class SearchBar {
    var searchQuery: string
    var contentType: string

    constructor()
      ensures searchQuery == "" && contentType == "multi"
    {
      searchQuery := "";
      contentType := "multi";
    }

    /** Typing: the field keeps the text exactly as entered. */
    method SetSearchQuery(text: string)
      modifies this
      ensures searchQuery == text && contentType == old(contentType)
    {
      searchQuery := text;
    }

    /** A content-type button. */
    method Select(b: TypeButton)
      modifies this
      ensures contentType == ButtonType(b) && searchQuery == old(searchQuery)
    {
      contentType := ButtonType(b);
    }

    /** Submitting the form: the navigation target, if any; the state stays
        as it is. */
    method HandleSearch() returns (target: Option<string>)
      ensures target == SearchTarget(searchQuery, contentType)
    {
      var q := Trim(searchQuery);
      TrimEmptyIffBlank(searchQuery);
      if q != "" {
        var params := new SearchParams.FromPairs([("q", q), ("content_type", contentType)]);
        target := Some("/search" + "?" + params.ToString());
      } else {
        target := None;
      }
    }
  }
}

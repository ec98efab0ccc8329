/** The router's view of a navigation target: `navigate("/search?…")` splits
    the string at its first `?` into a path and a search string, which
    `useSearchParams` then parses. Fragments are not part of the model. */
module Navigation {
  import opened Common
  import opened FormUrlEncoded

  datatype Location = Location(pathname: string, search: string)

  /** The three content-type buttons of the header and the platform grid. */
  datatype TypeButton = AllButton | MoviesButton | TvShowsButton

  /** The `content_type` value each button selects. */
  function ButtonType(b: TypeButton): (contentType: string)
    ensures contentType == "multi" <==> b == AllButton
    ensures contentType == "movie" <==> b == MoviesButton
    ensures contentType == "tv" <==> b == TvShowsButton
  {
    match b
    case AllButton => "multi"
    case MoviesButton => "movie"
    case TvShowsButton => "tv"
  }

  /** The index of the first `?`, or `|url|` when there is none. */
  function QueryStart(url: string): (i: nat)
    ensures i <= |url|
    ensures i < |url| ==> url[i] == '?'
    ensures forall j :: 0 <= j < i ==> url[j] != '?'
  {
    if url == [] || url[0] == '?' then 0 else 1 + QueryStart(url[1..])
  }

  /** Split a target at its first `?`; the search keeps the `?`. */
  function ToLocation(url: string): (loc: Location)
    ensures loc.pathname + loc.search == url
    ensures '?' !in loc.pathname
    ensures loc.search == [] || loc.search[0] == '?'
  {
    var i := QueryStart(url);
    assert url[..i] + url[i..] == url;
    Location(url[..i], url[i..])
  }

  /** The target `path?query` for a query the serializer produced lands on
      `path` with that query, whenever the path has no `?` of its own. */
  lemma {:induction false} ToLocationOfSerialized(path: string, pairs: Pairs)
    requires '?' !in path
    ensures ToLocation(path + "?" + Serialize(pairs)) == Location(path, "?" + Serialize(pairs))
  {
    var url := path + "?" + Serialize(pairs);
    assert url[|path|] == '?';
    forall j | 0 <= j < |path|
      ensures url[j] != '?'
    {
      assert url[j] == path[j];
    }
    QueryStartIs(url, |path|);
    assert url[..|path|] == path;
    assert url[|path|..] == "?" + Serialize(pairs);
  }

  /** The router reads back the parameters of a serialized target. */
  lemma TargetLocation(path: string, pairs: Pairs)
    requires '?' !in path
    ensures ToLocation(path + "?" + Serialize(pairs)).pathname == path
    ensures Parse(ToLocation(path + "?" + Serialize(pairs)).search) == pairs
  {
    ToLocationOfSerialized(path, pairs);
    ParseSerialize(pairs);
  }

  lemma {:induction false} QueryStartIs(url: string, i: nat)
    requires i < |url| && url[i] == '?'
    requires forall j :: 0 <= j < i ==> url[j] != '?'
    ensures QueryStart(url) == i
  {
    if i > 0 {
      QueryStartIs(url[1..], i - 1);
    }
  }
}

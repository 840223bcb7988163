/** The useSearch hook of src/hooks/useSearch.js: three result lists, a
    loading flag and an error, updated around one awaited search call per
    operation. Whether the call resolves (and with what) or rejects (and
    with which message) is a parameter; the searches issued are recorded in
    `requests`. */
module UseSearch {
  import opened Wrappers
  import opened Text

  /** A search hit; its fields are not inspected. */
  datatype Item = Item(id: string, name: string)

  datatype Category = Tracks | Artists | Playlists

  /** The Web API type name each category is searched under. */
  function TypeName(c: Category): string {
    match c
    case Tracks => "track"
    case Artists => "artist"
    case Playlists => "playlist"
  }

  /** A search sent to the API: query, types and limit. */
  datatype SearchRequest = SearchRequest(query: string, types: seq<string>, limit: int)

  /** The answer to a search for all three types: each category's `items`,
      absent when the answer has no such category. */
  datatype AllResults = AllResults(tracks: Option<seq<Item>>, artists: Option<seq<Item>>, playlists: Option<seq<Item>>)

  /** What a search operation returns: undefined, null, or a value. */
  datatype Returned<T> = Undefined | Null | Value(value: T)

  /** The `results` state: one list per category. */
  datatype Lists = Lists(tracks: seq<Item>, artists: seq<Item>, playlists: seq<Item>)
  {
    function Get(c: Category): seq<Item> {
      match c
      case Tracks => tracks
      case Artists => artists
      case Playlists => playlists
    }

    /** `{ ...prev, [c]: items }`: that category replaced, the others kept. */
    function With(c: Category, items: seq<Item>): (r: Lists)
      ensures r.Get(c) == items
      ensures forall d :: d != c ==> r.Get(d) == Get(d)
    {
      match c
      case Tracks => this.(tracks := items)
      case Artists => this.(artists := items)
      case Playlists => this.(playlists := items)
    }
  }

  const NoResults: Lists := Lists([], [], [])

  class SearchHook {
    var results: Lists
    var loading: bool
    var error: Option<string>
    ghost var requests: seq<SearchRequest>

    /** Empty results, not loading, no error. */
    constructor ()
      ensures results == NoResults && !loading && error == None && requests == []
    {
      results := NoResults;
      loading := false;
      error := None;
      requests := [];
    }

    /** searchAll(query, limit = 20). A blank query empties all three lists
        and returns at once: no request, and loading and error are left as
        they were. Otherwise one search for all three types is sent; on
        success every list becomes its category's items ([] when absent)
        and the data is returned; on failure the lists stay, the error is
        the message and null is returned. Loading ends false either way. */
    method SearchAll(query: string, outcome: Result<AllResults>, limit: int := 20) returns (r: Returned<AllResults>)
      modifies this
      ensures IsBlank(query) ==>
                results == NoResults
                && loading == old(loading) && error == old(error) && requests == old(requests) && r == Undefined
      ensures !IsBlank(query) ==>
                requests == old(requests) + [SearchRequest(query, ["track", "artist", "playlist"], limit)] && !loading
      ensures !IsBlank(query) && outcome.Ok? ==>
                results == Lists(outcome.value.tracks.GetOr([]), outcome.value.artists.GetOr([]), outcome.value.playlists.GetOr([]))
                && error == None && r == Value(outcome.value)
      ensures !IsBlank(query) && outcome.Err? ==>
                results == old(results) && error == Some(outcome.message) && r == Null
    {
      if IsBlank(query) {
        results := NoResults;
        return Undefined;
      }
      loading := true;
      error := None;
      requests := requests + [SearchRequest(query, ["track", "artist", "playlist"], limit)];
      match outcome {
        case Ok(data) =>
          results := Lists(data.tracks.GetOr([]), data.artists.GetOr([]), data.playlists.GetOr([]));
          r := Value(data);
        case Err(message) =>
          error := Some(message);
          r := Null;
      }
      loading := false;
    }

    /** searchTracks / searchArtists / searchPlaylists(query, limit = 20):
        the same shape for one category. A blank query empties only that
        list; success replaces only that list and returns the items; failure
        keeps every list, sets the error and returns []. */
    method SearchCategory(c: Category, query: string, outcome: Result<seq<Item>>, limit: int := 20) returns (r: Returned<seq<Item>>)
      modifies this
      ensures forall d :: d != c ==> results.Get(d) == old(results.Get(d))
      ensures IsBlank(query) ==>
                results.Get(c) == [] && loading == old(loading) && error == old(error) && requests == old(requests) && r == Undefined
      ensures !IsBlank(query) ==>
                requests == old(requests) + [SearchRequest(query, [TypeName(c)], limit)] && !loading
      ensures !IsBlank(query) && outcome.Ok? ==>
                results.Get(c) == outcome.value && error == None && r == Value(outcome.value)
      ensures !IsBlank(query) && outcome.Err? ==>
                results == old(results) && error == Some(outcome.message) && r == Value([])
    {
      if IsBlank(query) {
        results := results.With(c, []);
        return Undefined;
      }
      loading := true;
      error := None;
      requests := requests + [SearchRequest(query, [TypeName(c)], limit)];
      match outcome {
        case Ok(items) =>
          results := results.With(c, items);
          r := Value(items);
        case Err(message) =>
          error := Some(message);
          r := Value([]);
      }
      loading := false;
    }

    /** clearResults(): all three lists empty and no error; loading is not
        touched. */
    method ClearResults()
      modifies this
      ensures results == NoResults && error == None
      ensures loading == old(loading) && requests == old(requests)
    {
      results := NoResults;
      error := None;
    }
  }

  /** A caller's view: a failed artist search keeps the tracks found
      before and reports the error, which the next successful search
      clears; a blank query sends nothing. */
  method SearchWalkthrough(found: seq<Item>, more: seq<Item>)
  {
    var hook := new SearchHook();
    assert !IsBlank("daft punk") by { assert !IsSpace("daft punk"[0]); }
    assert !IsBlank("x") by { assert !IsSpace("x"[0]); }
    var r := hook.SearchCategory(Tracks, "daft punk", Ok(found));
    assert hook.results.tracks == found && r == Value(found);
    r := hook.SearchCategory(Artists, "daft punk", Err("Network error"));
    assert hook.results.tracks == found && hook.error == Some("Network error") && r == Value([]) && !hook.loading;
    var all := hook.SearchAll("  ", Ok(AllResults(None, None, None)));
    assert all == Undefined && |hook.requests| == 2 && hook.results.tracks == [];
    all := hook.SearchAll("x", Ok(AllResults(Some(more), None, None)));
    assert hook.results.tracks == more && hook.results.artists == [] && hook.error == None;
  }
}

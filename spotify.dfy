/** Two request builders of src/services/spotify/spotify.js: the
    authenticated fetch wrapper with its token guard and error rule, and the
    recommendations URL, which appends one query parameter per truthy filter
    in a fixed order. The network's answer is a parameter, and so is
    JavaScript's rendering of a number as text (floating point is not part
    of this model). */
module SpotifyApi {
  import opened Wrappers
  import opened Text
  import Storage
  import SpotifyAuth

  const ApiBase: string := "https://api.spotify.com/v1"

  // ---------------------------------------------------------------------
  // fetchWithAuth

  /** How the request ends: fetch itself rejects; an ok response whose
      JSON parses; an ok response whose body does not parse as JSON; or a
      non-ok response with the error.message of its body, if the body
      parses and has one. A rejection carries the message it rejects with. */
  datatype ApiResponse<J> =
    | NetworkFailure(reason: string)
    | Answered(json: J)
    | Unparsable(reason: string)
    | Failed(errorMessage: Option<string>)

  /** The request fetchWithAuth sends: the full URL and the bearer token. */
  datatype AuthorizedRequest = AuthorizedRequest(url: string, bearer: string)

  /** fetchWithAuth(endpoint): without a truthy stored token it throws 'No
      access token available' and sends nothing; otherwise it sends the
      request to the API base plus the endpoint. A rejected fetch, and an
      ok answer whose body is not JSON, pass their own error on; a non-ok
      answer throws the body's error message, or 'API request failed' when
      that is missing or empty. */
  method FetchWithAuth<J>(storage: Storage.LocalStorage, endpoint: string, response: ApiResponse<J>)
    returns (sent: Option<AuthorizedRequest>, r: Result<J>)
    ensures !Storage.Truthy(SpotifyAuth.GetAccessToken(storage)) ==>
              sent == None && r == Err("No access token available")
    ensures Storage.Truthy(SpotifyAuth.GetAccessToken(storage)) ==>
              sent == Some(AuthorizedRequest(ApiBase + endpoint, SpotifyAuth.GetAccessToken(storage).value))
    ensures Storage.Truthy(SpotifyAuth.GetAccessToken(storage)) && response.NetworkFailure? ==> r == Err(response.reason)
    ensures Storage.Truthy(SpotifyAuth.GetAccessToken(storage)) && response.Answered? ==> r == Ok(response.json)
    ensures Storage.Truthy(SpotifyAuth.GetAccessToken(storage)) && response.Unparsable? ==> r == Err(response.reason)
    ensures Storage.Truthy(SpotifyAuth.GetAccessToken(storage)) && response.Failed? ==>
              r == Err(if Storage.Truthy(response.errorMessage) then response.errorMessage.value else "API request failed")
  {
    var token := SpotifyAuth.GetAccessToken(storage);
    if !Storage.Truthy(token) {
      return None, Err("No access token available");
    }
    sent := Some(AuthorizedRequest(ApiBase + endpoint, token.value));
    match response {
      case NetworkFailure(reason) =>
        r := Err(reason);
      case Answered(json) =>
        r := Ok(json);
      case Unparsable(reason) =>
        r := Err(reason);
      case Failed(message) =>
        r := Err(if Storage.Truthy(message) then message.value else "API request failed");
    }
  }

  // ---------------------------------------------------------------------
  // getRecommendations

  /** A filter value as JavaScript holds it. */
  datatype FilterValue = Undefined | Num(value: real) | Str(text: string)

  /** JavaScript truthiness: undefined, 0 and '' are falsy. */
  predicate IsTruthy(v: FilterValue) {
    match v
    case Undefined => false
    case Num(x) => x != 0.0
    case Str(s) => s != ""
  }

  /** The text a value has inside a template literal; a number's text is
      Number.prototype.toString, given as a parameter. */
  function Render(v: FilterValue, numberText: real -> string): string {
    match v
    case Undefined => "undefined"
    case Num(x) => numberText(x)
    case Str(s) => s
  }

  /** The filters getRecommendations reads (any other field is ignored). */
  datatype Filters = Filters(key: FilterValue, bpm: FilterValue, energy: FilterValue,
                             danceability: FilterValue, valence: FilterValue)

  /** The filters as query parameters, in the order they are appended: key
      as target_key, bpm as target_tempo, and the rest as target_<name>. */
  function NamedFilters(f: Filters): (r: seq<(string, FilterValue)>)
    ensures |r| == 5
  {
    [("target_key", f.key), ("target_tempo", f.bpm), ("target_energy", f.energy),
     ("target_danceability", f.danceability), ("target_valence", f.valence)]
  }

  /** One query parameter, "name=value". */
  function KeyValue(name: string, v: FilterValue, numberText: real -> string): string {
    name + "=" + Render(v, numberText)
  }

  /** "name=value" for each truthy parameter, in order. */
  function KeptParams(params: seq<(string, FilterValue)>, numberText: real -> string): (r: seq<string>)
    ensures |r| <= |params|
  {
    if params == [] then []
    else
      var rest := KeptParams(params[1..], numberText);
      if IsTruthy(params[0].1) then [KeyValue(params[0].0, params[0].1, numberText)] + rest else rest
  }

  /** The seed parameter, the first part of the query. */
  function SeedParam(seedTrackId: string): string {
    ApiBase + "/recommendations?seed_tracks=" + seedTrackId
  }

  /** The URL before any filter: the seed and a limit of 20. */
  function BaseUrl(seedTrackId: string): string {
    SeedParam(seedTrackId) + "&limit=20"
  }

  /** What one guarded `url +=` appends: "&name=value" when the value is
      truthy, nothing otherwise. */
  function Param(name: string, v: FilterValue, numberText: real -> string): string {
    if IsTruthy(v) then "&" + KeyValue(name, v, numberText) else ""
  }

  /** The suffix the filters add, parameter by parameter. */
  function QueryTail(params: seq<(string, FilterValue)>, numberText: real -> string): string {
    if params == [] then ""
    else Param(params[0].0, params[0].1, numberText) + QueryTail(params[1..], numberText)
  }

  /** The URL getRecommendations fetches. */
  function RecommendationsUrl(seedTrackId: string, f: Filters, numberText: real -> string): string {
    BaseUrl(seedTrackId) + QueryTail(NamedFilters(f), numberText)
  }

  /** getRecommendations' URL, built as the source builds it: the base, then
      one `+=` per filter under its truthiness guard. */
  method BuildRecommendationsUrl(seedTrackId: string, f: Filters, numberText: real -> string) returns (url: string)
    ensures url == RecommendationsUrl(seedTrackId, f, numberText)
  {
    url := BaseUrl(seedTrackId);
    url := AppendIfTruthy(url, "&target_key=", "target_key", f.key, numberText);
    ghost var u1 := url;
    url := AppendIfTruthy(url, "&target_tempo=", "target_tempo", f.bpm, numberText);
    ghost var u2 := url;
    url := AppendIfTruthy(url, "&target_energy=", "target_energy", f.energy, numberText);
    ghost var u3 := url;
    url := AppendIfTruthy(url, "&target_danceability=", "target_danceability", f.danceability, numberText);
    ghost var u4 := url;
    url := AppendIfTruthy(url, "&target_valence=", "target_valence", f.valence, numberText);
    AssembleUrl(seedTrackId, f, numberText, u1, u2, u3, u4, url);
  }

  /** One `if (value) url += "&name=" + value`. */
  method AppendIfTruthy(url: string, literal: string, name: string, v: FilterValue, numberText: real -> string) returns (r: string)
    requires literal == "&" + name + "="
    ensures r == url + Param(name, v, numberText)
  {
    r := url;
    if IsTruthy(v) {
      r := r + literal + Render(v, numberText);
    }
    StepParam(url, r, literal, name, v, numberText);
  }

  lemma AssembleUrl(seedTrackId: string, f: Filters, numberText: real -> string, u1: string, u2: string, u3: string, u4: string, u5: string)
    requires u1 == BaseUrl(seedTrackId) + Param("target_key", f.key, numberText)
    requires u2 == u1 + Param("target_tempo", f.bpm, numberText)
    requires u3 == u2 + Param("target_energy", f.energy, numberText)
    requires u4 == u3 + Param("target_danceability", f.danceability, numberText)
    requires u5 == u4 + Param("target_valence", f.valence, numberText)
    ensures u5 == RecommendationsUrl(seedTrackId, f, numberText)
  {
    QueryTailSteps(f, numberText);
    Append5(BaseUrl(seedTrackId), Param("target_key", f.key, numberText), Param("target_tempo", f.bpm, numberText),
            Param("target_energy", f.energy, numberText), Param("target_danceability", f.danceability, numberText),
            Param("target_valence", f.valence, numberText));
  }

  /** One guarded `url += "&name=" + value` appends Param(name, value). */
  lemma StepParam(before: string, after: string, literal: string, name: string, v: FilterValue, numberText: real -> string)
    requires literal == "&" + name + "="
    requires after == if IsTruthy(v) then before + literal + Render(v, numberText) else before
    ensures after == before + Param(name, v, numberText)
  {
  }

  lemma Append5(a: string, b: string, c: string, d: string, e: string, f: string)
    ensures a + b + c + d + e + f == a + (b + (c + (d + (e + f))))
  {
  }

  /** The filter suffix unrolled over the five filters. */
  lemma QueryTailSteps(f: Filters, numberText: real -> string)
    ensures QueryTail(NamedFilters(f), numberText)
            == Param("target_key", f.key, numberText) + (Param("target_tempo", f.bpm, numberText)
               + (Param("target_energy", f.energy, numberText) + (Param("target_danceability", f.danceability, numberText)
               + Param("target_valence", f.valence, numberText))))
  {
    var ps := NamedFilters(f);
    assert QueryTail(ps[4..], numberText) == Param("target_valence", f.valence, numberText) by {
      assert ps[4..][1..] == [];
    }
    assert QueryTail(ps[3..], numberText) == Param("target_danceability", f.danceability, numberText) + QueryTail(ps[4..], numberText) by {
      assert ps[3..][1..] == ps[4..];
    }
    assert QueryTail(ps[2..], numberText) == Param("target_energy", f.energy, numberText) + QueryTail(ps[3..], numberText) by {
      assert ps[2..][1..] == ps[3..];
    }
    assert QueryTail(ps[1..], numberText) == Param("target_tempo", f.bpm, numberText) + QueryTail(ps[2..], numberText) by {
      assert ps[1..][1..] == ps[2..];
    }
  }

  /** Joining "a&b" as one part is joining a and b as two. */
  lemma JoinMerge(a: string, b: string, rest: seq<string>, sep: string)
    ensures Join([a + sep + b] + rest, sep) == Join([a, b] + rest, sep)
  {
    if rest != [] {
      assert ([a + sep + b] + rest)[1..] == rest;
      assert ([a, b] + rest)[1..] == [b] + rest;
      assert ([b] + rest)[1..] == rest;
    } else {
      assert [a, b][1..] == [b];
    }
  }

  /** A prefix followed by the filter suffix is the prefix and the kept
      parameters joined by '&'. */
  lemma {:induction false} QueryTailIsJoin(prefix: string, params: seq<(string, FilterValue)>, numberText: real -> string)
    ensures prefix + QueryTail(params, numberText) == Join([prefix] + KeptParams(params, numberText), "&")
    decreases |params|
  {
    if params != [] {
      var rest := params[1..];
      if IsTruthy(params[0].1) {
        var kv := KeyValue(params[0].0, params[0].1, numberText);
        calc {
          prefix + QueryTail(params, numberText);
          { assert QueryTail(params, numberText) == "&" + kv + QueryTail(rest, numberText); }
          (prefix + "&" + kv) + QueryTail(rest, numberText);
          { QueryTailIsJoin(prefix + "&" + kv, rest, numberText); }
          Join([prefix + "&" + kv] + KeptParams(rest, numberText), "&");
          { JoinMerge(prefix, kv, KeptParams(rest, numberText), "&"); }
          Join([prefix, kv] + KeptParams(rest, numberText), "&");
          { assert [prefix, kv] + KeptParams(rest, numberText) == [prefix] + KeptParams(params, numberText); }
          Join([prefix] + KeptParams(params, numberText), "&");
        }
      } else {
        QueryTailIsJoin(prefix, rest, numberText);
        assert QueryTail(params, numberText) == QueryTail(rest, numberText);
      }
    }
  }

  /** The base URL is the seed parameter and limit=20 joined by '&'. */
  lemma BaseUrlIsJoin(seedTrackId: string)
    ensures BaseUrl(seedTrackId) == Join([SeedParam(seedTrackId), "limit=20"], "&")
  {
    assert [SeedParam(seedTrackId), "limit=20"][1..] == ["limit=20"];
  }

  lemma SeedParamFree(seedTrackId: string)
    requires '&' !in seedTrackId
    ensures '&' !in SeedParam(seedTrackId)
  {
    assert '&' !in ApiBase;
    assert '&' !in "/recommendations?seed_tracks=";
  }

  lemma {:induction false} KeptParamsFree(params: seq<(string, FilterValue)>, numberText: real -> string, k: nat)
    requires forall i :: 0 <= i < |params| ==> '&' !in params[i].0 && (IsTruthy(params[i].1) ==> '&' !in Render(params[i].1, numberText))
    requires k < |KeptParams(params, numberText)|
    ensures '&' !in KeptParams(params, numberText)[k]
  {
    var rest := params[1..];
    if IsTruthy(params[0].1) && k == 0 {
      assert '&' !in KeyValue(params[0].0, params[0].1, numberText);
    } else {
      KeptParamsFree(rest, numberText, if IsTruthy(params[0].1) then k - 1 else k);
    }
  }

  lemma NamedFiltersFree(f: Filters, numberText: real -> string)
    requires forall i :: 0 <= i < 5 && IsTruthy(NamedFilters(f)[i].1) ==> '&' !in Render(NamedFilters(f)[i].1, numberText)
    ensures var ps := NamedFilters(f);
            forall i :: 0 <= i < |ps| ==> '&' !in ps[i].0 && (IsTruthy(ps[i].1) ==> '&' !in Render(ps[i].1, numberText))
  {
    var ps := NamedFilters(f);
    forall i | 0 <= i < |ps| ensures '&' !in ps[i].0 {
      assert i in {0, 1, 2, 3, 4};
    }
  }

  /** The URL read back as a query: split on '&', it is the seed
      parameter, limit=20, then "target_<name>=<value>" for exactly the
      truthy filters, in the fixed order key, bpm, energy, danceability,
      valence — provided the seed and the values hold no '&'. */
  lemma RecommendationsQuery(seedTrackId: string, f: Filters, numberText: real -> string)
    requires '&' !in seedTrackId
    requires forall i :: 0 <= i < 5 && IsTruthy(NamedFilters(f)[i].1) ==> '&' !in Render(NamedFilters(f)[i].1, numberText)
    ensures Split(RecommendationsUrl(seedTrackId, f, numberText), '&')
            == [SeedParam(seedTrackId), "limit=20"] + KeptParams(NamedFilters(f), numberText)
  {
    var ps := NamedFilters(f);
    var kept := KeptParams(ps, numberText);
    var parts := [SeedParam(seedTrackId), "limit=20"] + kept;
    assert RecommendationsUrl(seedTrackId, f, numberText) == Join(parts, "&") by {
      BaseUrlIsJoin(seedTrackId);
      QueryTailIsJoin(BaseUrl(seedTrackId), ps, numberText);
      JoinMerge(SeedParam(seedTrackId), "limit=20", kept, "&");
    }
    SeedParamFree(seedTrackId);
    NamedFiltersFree(f, numberText);
    forall k | 0 <= k < |parts| ensures '&' !in parts[k] {
      if k >= 2 {
        KeptParamsFree(ps, numberText, k - 2);
        assert parts[k] == kept[k - 2];
      }
    }
    SplitJoin(parts, '&');
  }

  /** The URL always starts with the seed and the limit of 20. */
  lemma RecommendationsUrlPrefix(seedTrackId: string, f: Filters, numberText: real -> string)
    ensures StartsWith(RecommendationsUrl(seedTrackId, f, numberText), BaseUrl(seedTrackId))
  {
  }

  /** A falsy filter is silently dropped: key 0 (the pitch class C), an
      energy of 0 and an empty string give the same URL as no filter. */
  lemma FalsyFiltersOmitted(seedTrackId: string, f: Filters, numberText: real -> string)
    ensures RecommendationsUrl(seedTrackId, f.(key := Num(0.0)), numberText) == RecommendationsUrl(seedTrackId, f.(key := Undefined), numberText)
    ensures RecommendationsUrl(seedTrackId, f.(energy := Num(0.0)), numberText) == RecommendationsUrl(seedTrackId, f.(energy := Undefined), numberText)
    ensures RecommendationsUrl(seedTrackId, f.(bpm := Str("")), numberText) == RecommendationsUrl(seedTrackId, f.(bpm := Undefined), numberText)
  {
    QueryTailSteps(f.(key := Num(0.0)), numberText);
    QueryTailSteps(f.(key := Undefined), numberText);
    QueryTailSteps(f.(energy := Num(0.0)), numberText);
    QueryTailSteps(f.(energy := Undefined), numberText);
    QueryTailSteps(f.(bpm := Str("")), numberText);
    QueryTailSteps(f.(bpm := Undefined), numberText);
  }

  /** With every filter truthy, all five parameters appear, in order. */
  lemma AllFiltersInOrder(f: Filters, numberText: real -> string)
    requires IsTruthy(f.key) && IsTruthy(f.bpm) && IsTruthy(f.energy) && IsTruthy(f.danceability) && IsTruthy(f.valence)
    ensures KeptParams(NamedFilters(f), numberText)
            == [KeyValue("target_key", f.key, numberText), KeyValue("target_tempo", f.bpm, numberText),
                KeyValue("target_energy", f.energy, numberText), KeyValue("target_danceability", f.danceability, numberText),
                KeyValue("target_valence", f.valence, numberText)]
  {
    var ps := NamedFilters(f);
    assert KeptParams(ps[4..], numberText) == [KeyValue("target_valence", f.valence, numberText)] by {
      assert ps[4..][1..] == [];
    }
    assert KeptParams(ps[3..], numberText) == [KeyValue("target_danceability", f.danceability, numberText)] + KeptParams(ps[4..], numberText) by {
      assert ps[3..][1..] == ps[4..];
    }
    assert KeptParams(ps[2..], numberText) == [KeyValue("target_energy", f.energy, numberText)] + KeptParams(ps[3..], numberText) by {
      assert ps[2..][1..] == ps[3..];
    }
    assert KeptParams(ps[1..], numberText) == [KeyValue("target_tempo", f.bpm, numberText)] + KeptParams(ps[2..], numberText) by {
      assert ps[1..][1..] == ps[2..];
    }
  }
}

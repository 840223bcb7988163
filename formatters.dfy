/** Display helpers of src/services/utils/formatters.js: track durations,
    follower counts, catalog records with defaults, and Spotify URIs. */
module Formatters {
  import opened Wrappers
  import opened Text

  const MsPerMinute: nat := 60000
  const MsPerSecond: nat := 1000

  // ---------------------------------------------------------------------
  // formatDuration

  /** The seconds field before padding: ((ms % 60000) / 1000).toFixed(0).
      The quotient is k + f/1000 with f < 1000; toFixed(0) takes the nearest
      integer and, on an exact half (f == 500, representable exactly), the
      larger one, which is (rem + 500) div 1000. */
  function SecondsField(ms: nat): nat
  {
    (ms % MsPerMinute + 500) / MsPerSecond
  }

  /** formatDuration(ms) as written: "0:00" when ms is absent or 0, otherwise
      the whole minutes, ':' and the rounded seconds of the remainder padded
      to two digits. The seconds are rounded without carrying into the
      minutes. */
  function FormatDuration(ms: Option<nat>): string
  {
    if ms.None? || ms.value == 0 then "0:00"
    else NatToString(ms.value / MsPerMinute) + ":" + PadStart(NatToString(SecondsField(ms.value)), 2, '0')
  }

  /** How a reader takes a "M:SS" text apart: two ':'-separated fields of
      decimal digits, the second exactly two characters wide. */
  function ReadDuration(text: string): Option<(nat, nat)>
  {
    var fields := Split(text, ':');
    if |fields| == 2 && fields[0] != [] && AllDigits(fields[0]) && |fields[1]| == 2 && AllDigits(fields[1])
    then Some((DigitsValue(fields[0]), DigitsValue(fields[1])))
    else None
  }

  lemma {:induction false} LeadingZeroValue(d: string)
    requires AllDigits(d)
    ensures AllDigits("0" + d) && DigitsValue("0" + d) == DigitsValue(d)
  {
    if d != [] {
      var z := "0" + d;
      assert z[..|z| - 1] == "0" + d[..|d| - 1];
      LeadingZeroValue(d[..|d| - 1]);
    }
  }

  /** The two-digit seconds text for 0 <= s < 100. */
  lemma TwoDigitSeconds(s: nat)
    requires s < 100
    ensures var p := PadStart(NatToString(s), 2, '0');
            |p| == 2 && AllDigits(p) && DigitsValue(p) == s
  {
    var d := NatToString(s);
    NatToStringValue(s);
    if s < 10 {
      assert PadStart(d, 2, '0') == "0" + d;
      LeadingZeroValue(d);
    } else {
      assert d == NatToString(s / 10) + [DigitChar(s % 10)];
    }
  }

  lemma ReadFields(text: string, head: string, tail: string)
    requires Split(text, ':') == [head, tail]
    requires head != [] && AllDigits(head) && |tail| == 2 && AllDigits(tail)
    ensures ReadDuration(text) == Some((DigitsValue(head), DigitsValue(tail)))
  {
  }

  lemma SplitClock(head: string, tail: string)
    requires ':' !in head && ':' !in tail
    ensures Split(head + ":" + tail, ':') == [head, tail]
  {
    assert head + ":" + tail == head + [':'] + tail;
    SplitPrefix(head, ':', tail);
    SplitNoSeparator(tail, ':');
  }

  lemma SplitClockDigits(m: nat, s: nat)
    requires s < 100
    ensures Split(NatToString(m) + ":" + PadStart(NatToString(s), 2, '0'), ':')
         == [NatToString(m), PadStart(NatToString(s), 2, '0')]
  {
    var head := NatToString(m);
    var tail := PadStart(NatToString(s), 2, '0');
    assert ':' !in head by { DigitsHaveNoColon(head); }
    assert ':' !in tail by { TwoDigitSeconds(s); DigitsHaveNoColon(tail); }
    SplitClock(head, tail);
  }

  lemma DigitsHaveNoColon(d: string)
    requires AllDigits(d)
    ensures ':' !in d
  {
  }

  /** "M:SS" built from m and a two-digit s reads back as (m, s). */
  lemma ReadClock(m: nat, s: nat)
    requires s < 100
    ensures ReadDuration(NatToString(m) + ":" + PadStart(NatToString(s), 2, '0')) == Some((m, s))
  {
    var head := NatToString(m);
    var tail := PadStart(NatToString(s), 2, '0');
    SplitClockDigits(m, s);
    TwoDigitSeconds(s);
    NatToStringValue(m);
    ReadFields(head + ":" + tail, head, tail);
  }

  /** The text formatDuration prints for a positive duration reads back as
      (minutes, seconds) where minutes is ms div 60000 and the two fields
      together are ms rounded to the nearest second, halves upward; the
      seconds field ranges over 0..60 and is 60 exactly when the remainder
      is 59500 ms or more. */
  lemma FormatDurationReadsBack(ms: nat)
    requires ms > 0
    ensures ReadDuration(FormatDuration(Some(ms))).Some?
    ensures var (minutes, seconds) := ReadDuration(FormatDuration(Some(ms))).value;
            && minutes == ms / MsPerMinute
            && seconds <= 60
            && ms - 500 < minutes * MsPerMinute + seconds * MsPerSecond <= ms + 500
            && (seconds == 60 <==> ms % MsPerMinute >= 59500)
  {
    var m := ms / MsPerMinute;
    var s := SecondsField(ms);
    assert s <= 60;
    ReadClock(m, s);
    assert ReadDuration(FormatDuration(Some(ms))) == Some((m, s));
    assert ms == m * MsPerMinute + ms % MsPerMinute;
  }

  /** Zero and absent durations print as "0:00". */
  lemma FormatDurationZero()
    ensures FormatDuration(None) == "0:00" && FormatDuration(Some(0)) == "0:00"
  {
  }

  /** The missing carry: 59.5 seconds prints as "0:60" and 119999 ms as
      "1:60" where a clock reading would say "1:00" and "2:00". */
  lemma FormatDurationSixtySeconds()
    ensures FormatDuration(Some(59500)) == "0:60"
    ensures FormatDuration(Some(119999)) == "1:60"
  {
    assert SecondsField(59500) == 60 && SecondsField(119999) == 60;
    assert DigitChar(6) == '6' && DigitChar(0) == '0' && DigitChar(1) == '1';
    assert NatToString(60) == "60" by { assert NatToString(6) == "6"; }
    assert PadStart("60", 2, '0') == "60";
    assert NatToString(0) == "0" && NatToString(1) == "1";
  }

  /** The carrying formatter: the duration is rounded to whole seconds
      first, then split into minutes and a two-digit seconds field. */
  function FormatDurationCarried(ms: Option<nat>): string
  {
    if ms.None? || ms.value == 0 then "0:00"
    else
      var total := (ms.value + 500) / MsPerSecond;
      NatToString(total / 60) + ":" + PadStart(NatToString(total % 60), 2, '0')
  }

  /** The carrying formatter reads back as a clock time: the seconds field is
      below 60 and the two fields are ms rounded to the nearest second. */
  lemma FormatDurationCarriedReadsBack(ms: nat)
    requires ms > 0
    ensures ReadDuration(FormatDurationCarried(Some(ms))).Some?
    ensures var (minutes, seconds) := ReadDuration(FormatDurationCarried(Some(ms))).value;
            && seconds < 60
            && ms - 500 < minutes * MsPerMinute + seconds * MsPerSecond <= ms + 500
  {
    var total := (ms + 500) / MsPerSecond;
    ReadClock(total / 60, total % 60);
    ClockArithmetic(ms);
  }

  lemma ClockArithmetic(ms: nat)
    ensures var total := (ms + 500) / MsPerSecond;
            ms - 500 < (total / 60) * MsPerMinute + (total % 60) * MsPerSecond <= ms + 500
  {
    var total := (ms + 500) / MsPerSecond;
    var m, s := total / 60, total % 60;
    assert total == m * 60 + s;
    assert m * MsPerMinute + s * MsPerSecond == total * MsPerSecond;
    assert total * MsPerSecond <= ms + 500 < total * MsPerSecond + MsPerSecond;
  }

  // ---------------------------------------------------------------------
  // formatNumber

  /** formatNumber(num). The one-decimal rendering of num / 1000000 or
      num / 1000 (toFixed(1) of a floating-point quotient) is the parameter
      fixed1(num, divisor); only the choice of suffix is modelled. */
  function FormatNumber(num: int, fixed1: (int, nat) -> string): string
  {
    if num >= 1000000 then fixed1(num, 1000000) + "M"
    else if num >= 1000 then fixed1(num, 1000) + "K"
    else IntToString(num)
  }

  /** The suffix is 'M' exactly from one million up, 'K' exactly from one
      thousand below one million, and below one thousand the text is the
      plain decimal of the number. */
  lemma FormatNumberSuffix(num: int, fixed1: (int, nat) -> string)
    ensures var r := FormatNumber(num, fixed1);
            && |r| >= 1
            && (r[|r| - 1] == 'M' <==> num >= 1000000)
            && (r[|r| - 1] == 'K' <==> 1000 <= num < 1000000)
            && (num < 1000 ==> ParseInt(r) == Some(num))
  {
    var r := FormatNumber(num, fixed1);
    if num < 1000 {
      var d := IntToString(num);
      assert IsDigit(d[|d| - 1]) by {
        if num < 0 { assert d[|d| - 1] == d[1..][|d| - 2]; }
      }
      ParseIntOfIntToString(num);
    }
  }

  // ---------------------------------------------------------------------
  // formatTrack, formatPlaylist, formatArtist

  datatype Image = Image(url: Option<string>)
  datatype AlbumRef = AlbumRef(name: Option<string>, images: Option<seq<Image>>)
  datatype ArtistRef = ArtistRef(name: Option<string>)
  /** An object with a numeric `total` field (playlist tracks, followers). */
  datatype Total = Total(total: Option<nat>)
  datatype Owner = Owner(displayName: Option<string>)

  /** A track object as the Web API returns it; every field may be missing. */
  datatype RawTrack = RawTrack(
    id: Option<string>, name: Option<string>, artists: Option<seq<ArtistRef>>,
    album: Option<AlbumRef>, durationMs: Option<nat>, uri: Option<string>,
    previewUrl: Option<string>)

  datatype TrackView = TrackView(
    id: Option<string>, name: Option<string>, artist: string, album: string,
    albumArt: Option<string>, duration: Option<nat>, uri: Option<string>,
    previewUrl: Option<string>)

  datatype RawPlaylist = RawPlaylist(
    id: Option<string>, name: Option<string>, description: Option<string>,
    images: Option<seq<Image>>, tracks: Option<Total>, owner: Option<Owner>,
    isPublic: Option<bool>, uri: Option<string>)

  datatype PlaylistView = PlaylistView(
    id: Option<string>, name: Option<string>, description: Option<string>,
    image: Option<string>, trackCount: nat, owner: string,
    isPublic: Option<bool>, uri: Option<string>)

  datatype RawArtist = RawArtist(
    id: Option<string>, name: Option<string>, images: Option<seq<Image>>,
    followers: Option<Total>, genres: Option<seq<string>>,
    popularity: Option<nat>, uri: Option<string>)

  datatype ArtistView = ArtistView(
    id: Option<string>, name: Option<string>, image: Option<string>,
    followers: nat, genres: seq<string>, popularity: nat, uri: Option<string>)

  /** `x || fallback` for a possibly missing string. */
  function OrElse(s: Option<string>, fallback: string): (r: string)
    ensures s.Some? && s.value != "" ==> r == s.value
    ensures (s.None? || s.value == "") ==> r == fallback
  {
    if s.Some? && s.value != "" then s.value else fallback
  }

  /** The list has a first image and that image has a non-empty url. */
  predicate HasFirstUrl(images: Option<seq<Image>>) {
    images.Some? && images.value != [] && images.value[0].url.Some? && images.value[0].url.value != ""
  }

  /** `images?.[0]?.url || null`: the first image's url when it is there and
      non-empty, otherwise null. */
  function FirstImageUrl(images: Option<seq<Image>>): (r: Option<string>)
    ensures r.Some? <==> HasFirstUrl(images)
    ensures r.Some? ==> r == images.value[0].url && r.value != ""
  {
    if images.Some? && images.value != [] && images.value[0].url.Some? && images.value[0].url.value != ""
    then images.value[0].url else None
  }

  /** `n || 0` for a possibly missing count. */
  function CountOrZero(n: Option<nat>): nat {
    n.GetOr(0)
  }

  /** Array.prototype.join renders missing names as "". */
  function ArtistNames(artists: seq<ArtistRef>): string {
    Join(seq(|artists|, i requires 0 <= i < |artists| => artists[i].name.GetOr("")), ", ")
  }

  /** formatTrack: the artist names joined by ", " or 'Unknown Artist' when
      that is empty (no list, an empty list, one nameless artist); the album
      name or 'Unknown Album'; the first album image's url or null; every
      other field passed through. */
  function FormatTrack(t: RawTrack): (v: TrackView)
    ensures v.artist != "" && v.album != ""
    ensures (t.artists.None? || t.artists.value == []) ==> v.artist == "Unknown Artist"
    ensures t.artists.Some? && ArtistNames(t.artists.value) != "" ==> v.artist == ArtistNames(t.artists.value)
    ensures t.artists.Some? && ArtistNames(t.artists.value) == "" ==> v.artist == "Unknown Artist"
    ensures (t.album.None? || t.album.value.name.None? || t.album.value.name.value == "") ==> v.album == "Unknown Album"
    ensures t.album.Some? && t.album.value.name.Some? && t.album.value.name.value != "" ==> v.album == t.album.value.name.value
    ensures v.albumArt.Some? <==> t.album.Some? && HasFirstUrl(t.album.value.images)
    ensures v.albumArt.Some? ==> v.albumArt == t.album.value.images.value[0].url
    ensures v.id == t.id && v.name == t.name && v.duration == t.durationMs && v.uri == t.uri && v.previewUrl == t.previewUrl
  {
    TrackView(
      t.id, t.name,
      if t.artists.Some? then OrElse(Some(ArtistNames(t.artists.value)), "Unknown Artist") else "Unknown Artist",
      if t.album.Some? then OrElse(t.album.value.name, "Unknown Album") else "Unknown Album",
      if t.album.Some? then FirstImageUrl(t.album.value.images) else None,
      t.durationMs, t.uri, t.previewUrl)
  }

  /** The fallback applies only when the joined text is empty: one
      nameless artist gives 'Unknown Artist', but two nameless artists join
      to ", ", which is shown as is. */
  lemma NamelessArtists(t: RawTrack)
    ensures t.artists == Some([ArtistRef(None)]) ==> FormatTrack(t).artist == "Unknown Artist"
    ensures t.artists == Some([ArtistRef(None), ArtistRef(None)]) ==> FormatTrack(t).artist == ", "
  {
    if t.artists == Some([ArtistRef(None), ArtistRef(None)]) {
      var names := seq(2, i requires 0 <= i < 2 => t.artists.value[i].name.GetOr(""));
      assert names == ["", ""];
      assert ArtistNames(t.artists.value) == "" + ", " + "";
    }
  }

  /** formatPlaylist: the track count defaults to 0, the owner's display
      name to 'Unknown', the image to null; the rest is passed through. */
  function FormatPlaylist(p: RawPlaylist): (v: PlaylistView)
    ensures v.owner != ""
    ensures (p.owner.None? || p.owner.value.displayName.None? || p.owner.value.displayName.value == "") ==> v.owner == "Unknown"
    ensures p.owner.Some? && p.owner.value.displayName.Some? && p.owner.value.displayName.value != "" ==> v.owner == p.owner.value.displayName.value
    ensures (p.tracks.None? || p.tracks.value.total.None?) ==> v.trackCount == 0
    ensures p.tracks.Some? && p.tracks.value.total.Some? ==> v.trackCount == p.tracks.value.total.value
    ensures v.image.Some? <==> HasFirstUrl(p.images)
    ensures v.image.Some? ==> v.image == p.images.value[0].url
    ensures v.id == p.id && v.name == p.name && v.description == p.description && v.isPublic == p.isPublic && v.uri == p.uri
  {
    PlaylistView(
      p.id, p.name, p.description, FirstImageUrl(p.images),
      if p.tracks.Some? then CountOrZero(p.tracks.value.total) else 0,
      if p.owner.Some? then OrElse(p.owner.value.displayName, "Unknown") else "Unknown",
      p.isPublic, p.uri)
  }

  /** formatArtist: followers and popularity default to 0, genres to the
      empty list (an empty list is kept), the image to null. */
  function FormatArtist(a: RawArtist): (v: ArtistView)
    ensures (a.followers.None? || a.followers.value.total.None?) ==> v.followers == 0
    ensures a.followers.Some? && a.followers.value.total.Some? ==> v.followers == a.followers.value.total.value
    ensures a.genres.None? ==> v.genres == []
    ensures a.genres.Some? ==> v.genres == a.genres.value
    ensures a.popularity.None? ==> v.popularity == 0
    ensures a.popularity.Some? ==> v.popularity == a.popularity.value
    ensures v.image.Some? <==> HasFirstUrl(a.images)
    ensures v.image.Some? ==> v.image == a.images.value[0].url
    ensures v.id == a.id && v.name == a.name && v.uri == a.uri
  {
    ArtistView(
      a.id, a.name, FirstImageUrl(a.images),
      if a.followers.Some? then CountOrZero(a.followers.value.total) else 0,
      a.genres.GetOr([]), CountOrZero(a.popularity), a.uri)
  }

  // ---------------------------------------------------------------------
  // extractTrackId, toSpotifyUri

  const TrackUriPrefix: string := "spotify:track:"

  lemma TrackUriSplit(rest: string)
    ensures Split(TrackUriPrefix + rest, ':') == ["spotify", "track"] + Split(rest, ':')
  {
    assert TrackUriPrefix + rest == "spotify" + [':'] + ("track" + [':'] + rest);
    SplitPrefix("spotify", ':', "track" + [':'] + rest);
    SplitPrefix("track", ':', rest);
  }

  /** extractTrackId(uri): null for a missing or empty uri; for a
      "spotify:track:" uri the third ':'-separated piece; any other string
      unchanged. */
  function ExtractTrackId(uri: Option<string>): (r: Option<string>)
    ensures r.None? <==> uri.None? || uri.value == ""
    ensures uri.Some? && uri.value != "" && !StartsWith(uri.value, TrackUriPrefix) ==> r == uri
    ensures uri.Some? && StartsWith(uri.value, TrackUriPrefix) ==>
              var rest := uri.value[|TrackUriPrefix|..];
              r.Some? && ':' !in r.value && r.value <= rest && (|r.value| == |rest| || rest[|r.value|] == ':')
  {
    if uri.None? || uri.value == "" then None
    else if StartsWith(uri.value, TrackUriPrefix) then
      var rest := uri.value[|TrackUriPrefix|..];
      assert uri.value == TrackUriPrefix + rest;
      TrackUriSplit(rest);
      FirstPieceIsMaximal(rest, ':');
      SplitPiecesFree(rest, ':', 0);
      Some(Split(uri.value, ':')[2])
    else uri
  }

  /** The first piece of a split is the longest separator-free prefix: it
      is a prefix, and it ends at the end of the string or at a separator. */
  lemma {:induction false} FirstPieceIsMaximal(s: string, sep: char)
    ensures Split(s, sep)[0] <= s
    ensures |Split(s, sep)[0]| == |s| || s[|Split(s, sep)[0]|] == sep
  {
    if s != [] && s[0] != sep {
      FirstPieceIsMaximal(s[1..], sep);
    }
  }

  /** toSpotifyUri(id, type = 'track'). */
  function ToSpotifyUri(id: string, kind: string := "track"): string {
    "spotify:" + kind + ":" + id
  }

  /** A URI built by toSpotifyUri splits back into its three parts when
      neither the type nor the id contains ':'. */
  lemma ToSpotifyUriParts(id: string, kind: string)
    requires ':' !in kind && ':' !in id
    ensures Split(ToSpotifyUri(id, kind), ':') == ["spotify", kind, id]
  {
    assert ToSpotifyUri(id, kind) == "spotify" + [':'] + (kind + [':'] + id);
    SplitPrefix("spotify", ':', kind + [':'] + id);
    SplitPrefix(kind, ':', id);
    SplitNoSeparator(id, ':');
  }

  /** extractTrackId undoes toSpotifyUri for every id without ':'. */
  lemma ExtractTrackIdOfUri(id: string)
    requires ':' !in id
    ensures ExtractTrackId(Some(ToSpotifyUri(id))) == Some(id)
  {
    var u := ToSpotifyUri(id);
    assert u == TrackUriPrefix + id;
    assert StartsWith(u, TrackUriPrefix);
    ToSpotifyUriParts(id, "track");
  }

  /** And toSpotifyUri rebuilds a track uri from its extracted id when the
      id part holds no further ':'. */
  lemma UriOfExtractTrackId(uri: string)
    requires StartsWith(uri, TrackUriPrefix) && ':' !in uri[|TrackUriPrefix|..]
    ensures ExtractTrackId(Some(uri)).Some?
    ensures ToSpotifyUri(ExtractTrackId(Some(uri)).value) == uri
  {
    var rest := uri[|TrackUriPrefix|..];
    assert uri == TrackUriPrefix + rest;
    TrackUriSplit(rest);
    SplitNoSeparator(rest, ':');
  }
}

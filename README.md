# Spotify DJ web client — a verified model of its logic

This project models the deterministic logic of a browser client for the Spotify Web API and proves properties about it. It covers:

- the display formatters for durations, counts, catalog records and Spotify URIs;
- the Camelot-wheel tables and the two key-name lookups;
- the similar-tracks filter;
- the playback queue;
- the PKCE authorization-code login: verifier, challenge, the authorize request, the token exchange, logout and the expiry check;
- the callback page's validation order;
- the implicit-grant token read from the URL fragment;
- the Web Playback player's device-id guards and play-request bodies;
- the recommendations URL builder and the authenticated fetch guard;
- the search and playlist hooks.

Pure code is modelled as functions and lemmas. Code that updates state step by step is modelled as classes:

- `localStorage` is the class `Storage.LocalStorage`, which holds a `map<string, string>`.
- React state becomes fields, and every `setX` becomes an assignment.
- The module-level `player`/`deviceId` of the player service are fields of `SpotifyPlayer.PlayerState`.

Some inputs the code gets from outside are parameters:

- every awaited network or player call's outcome, which either resolves with a value or rejects with a message;
- the clock;
- the random bytes;
- the SHA-256 and `btoa` primitives.

Each stateful class records, in a ghost `requests` (or `sdkCalls`) sequence, the calls it made. This makes "no request before the guard" a checked property.

Modules:

- Helpers: `Wrappers` (Option/Result), `Text` (decimal printing, `parseInt`, `split`/`join`, `startsWith`, `includes`, `padStart`, `trim() === ''`) and `Storage`.
- Source modules: `Formatters`, `Constants`, `TrackCard`, `MusicAnalysis`, `SimilarTracks`, `Playback`, `SpotifyAuth`, `Callback`, `AuthContext`, `SpotifyPlayer`, `SpotifyApi`, `UseSearch` and `UsePlaylists`. There is one for each source file.

## Model

| member | source | states |
|---|---|---|
| Formatters.FormatDurationZero | src/services/utils/formatters.js:3 | an absent or zero duration prints exactly "0:00" |
| Formatters.FormatDurationReadsBack | src/services/utils/formatters.js:2-7 | for ms > 0 the text is "M:SS": minutes = ms div 60000; the two fields together are ms rounded to the nearest second, halves up; seconds lie in 0..60 and are 60 exactly when ms mod 60000 >= 59500 |
| Formatters.FormatDurationSixtySeconds | src/services/utils/formatters.js:5-6 | the missing carry: 59500 ms prints "0:60" and 119999 ms prints "1:60" |
| Formatters.FormatDurationCarriedReadsBack | src/services/utils/formatters.js:2-7 | the carrying formatter reads back with seconds < 60, and the fields are still ms rounded to the nearest second |
| Formatters.FormatNumberSuffix | src/services/utils/formatters.js:10-18 | the text ends in 'M' iff num >= 1000000 and in 'K' iff 1000 <= num < 1000000; below 1000 it parses back to num |
| Formatters.FirstImageUrl | src/services/utils/formatters.js:26 | images[0].url when the list has a first image with a non-empty url, otherwise null |
| Formatters.FormatTrack | src/services/utils/formatters.js:21-32 | artist names joined by ", ", or 'Unknown Artist' when the list is absent or the joined text is empty; album name or 'Unknown Album' when absent or empty; albumArt is the album's images[0].url when present and non-empty, otherwise null; other fields passed through |
| Formatters.NamelessArtists | src/services/utils/formatters.js:25 | one nameless artist gives 'Unknown Artist', two nameless artists give ", " |
| Formatters.FormatPlaylist | src/services/utils/formatters.js:35-46 | the track count defaults to 0; the owner is display_name, or 'Unknown' when it is absent or empty; the image is images[0].url when present and non-empty, otherwise null; the rest is passed through |
| Formatters.FormatArtist | src/services/utils/formatters.js:49-59 | followers and popularity default to 0, genres to [] (an empty list is kept); the image is images[0].url when present and non-empty, otherwise null |
| Formatters.ExtractTrackId | src/services/utils/formatters.js:62-68 | null iff the uri is absent or empty; a "spotify:track:" uri gives the part after that prefix up to its first ':' or its end, which is split(':')[2]; any other string is returned unchanged |
| Formatters.ToSpotifyUriParts | src/services/utils/formatters.js:71-73 | "spotify:" + type + ":" + id splits back into its three parts when type and id hold no ':' |
| Formatters.ExtractTrackIdOfUri | src/services/utils/formatters.js:62-73 | extractTrackId(toSpotifyUri(id)) == id for every id without ':' |
| Formatters.UriOfExtractTrackId | src/services/utils/formatters.js:62-73 | toSpotifyUri(extractTrackId(uri)) == uri for a track uri whose id part has no ':' |
| Constants.MajorCodes | src/lib/constants.js:7-20 | every major code is one or two digits followed by 'B', with its listed wheel number |
| Constants.MinorCodes | src/lib/constants.js:22-35 | every minor code is one or two digits followed by 'A', with its listed wheel number |
| Constants.NumbersAreBijective | src/lib/constants.js:5-36 | in each mode the wheel numbers are pairwise distinct, lie in 1..12 and cover 1..12 |
| Constants.CodesAreDistinct | src/lib/constants.js:7-35 | two pitch classes never share a code or a number within a mode, and no major code equals a minor code |
| Constants.CodesCoverWheel | src/lib/constants.js:5-36 | every wheel number 1..12 is some pitch class's number in each table |
| Constants.RelativeKeysShareNumber | src/lib/constants.js:8-31 | major[k] and minor[(k+9) mod 12] have the same wheel number |
| Constants.FifthUpIsNextNumber | src/lib/constants.js:7-35 | pitch class +7 mod 12 moves the wheel number from n to n mod 12 + 1 in both tables |
| TrackCard.GetKeyName | src/components/TrackCard.jsx:4-7 | pitch classes 0..11 give their table entry; every other key, including -1, 12 and undefined, gives "Unknown" |
| TrackCard.PitchNamesWellFormed | src/components/TrackCard.jsx:5 | the twelve names are non-empty, differ from "Unknown" and contain neither "Major" nor "Minor" |
| TrackCard.GetKeyNameInjective | src/components/TrackCard.jsx:4-6 | on 0..11 two keys get the same name iff they are equal, and none gets "Unknown" |
| TrackCard.GetKeyNameHasNoMode | src/components/TrackCard.jsx:4-7 | no output contains "Major" or "Minor" |
| MusicAnalysis.KeyLabel | src/services/utils/musicAnalysis.js:8 | the table entry when present and non-empty; 'Unknown' for a missing key, a missing entry or an empty entry; never empty |
| MusicAnalysis.ModeLabel | src/services/utils/musicAnalysis.js:9 | the table entry when present, otherwise '' |
| MusicAnalysis.GetKeyName | src/services/utils/musicAnalysis.js:6-11 | key -1 gives exactly 'Unknown'; every other key gives key label + ' ' + mode label |
| MusicAnalysis.UnlistedKeyKeepsMode | src/services/utils/musicAnalysis.js:8-10 | an unlisted key with mode 'Major' gives "Unknown Major" |
| MusicAnalysis.UnlistedModeTrailingSpace | src/services/utils/musicAnalysis.js:9-10 | an unlisted mode leaves the key label followed by a trailing space |
| MusicAnalysis.SentinelHasNoSuffix | src/services/utils/musicAnalysis.js:7 | the result for key -1 has no space, so no mode suffix |
| MusicAnalysis.AgreesWithTrackCard | src/services/utils/musicAnalysis.js:6-11 | with the card's twelve names as the key table, the result is the card's name + ' ' + the mode label |
| SimilarTracks.FilteredTracks | src/components/track/SimilarTracks.jsx:8-14 | the result is an order-preserving subsequence of the input; every result track passes the filter, and every passing track occurs in the result exactly as often as in the input (duplicates are kept) |
| SimilarTracks.KeepAllIsIdentity | src/components/track/SimilarTracks.jsx:8-14 | a filter that keeps every track returns the list unchanged |
| SimilarTracks.AllAndUnknownReturnInput | src/components/track/SimilarTracks.jsx:6-14 | 'all' (the initial selection) and every unrecognised value return the input list |
| SimilarTracks.BpmBoundary | src/components/track/SimilarTracks.jsx:10 | a tempo difference of 5 either way is kept and 5.1 is dropped; fractional tempos compare exactly (120.4 against 125.3 is kept); an undefined tempo on either side is dropped; a null tempo counts as 0; the window equals BPM_TOLERANCE |
| SimilarTracks.KeyFilterIsExact | src/components/track/SimilarTracks.jsx:11 | 'key' keeps a track iff the keys are equal, so the relative minor is dropped |
| SimilarTracks.KeyFilterMembers | src/components/track/SimilarTracks.jsx:11 | a track is in the 'key' result iff it is in the input and has the original's key, and then as often as in the input |
| SimilarTracks.GenreFilterMembers | src/components/track/SimilarTracks.jsx:12 | a track is in the 'genre' result iff it is in the input and has the original's genre, and then as often as in the input |
| Playback.PlaybackQueue.constructor | src/hooks/usePlayback.js:6-7 | an empty queue with the cursor at 0 |
| Playback.PlaybackQueue.PlayTrack | src/hooks/usePlayback.js:10-18 | plays the uri; on success the queue is [track] at index 0; a rejection leaves queue and cursor as they were; the range invariant is kept |
| Playback.PlaybackQueue.PlayTrackList | src/hooks/usePlayback.js:21-30 | plays all uris from startIndex; on success the queue is the list and the cursor is startIndex, unchecked; an out-of-range start breaks the invariant |
| Playback.PlaybackQueue.PlayNext | src/hooks/usePlayback.js:33-38 | only before the last track: calls next() and moves the cursor +1 on success; a rejection propagates and the cursor stays; otherwise no call and no change |
| Playback.PlaybackQueue.PlayPrevious | src/hooks/usePlayback.js:41-46 | only past 0: calls previous() and moves the cursor -1 on success; a rejection propagates and the cursor stays |
| Playback.PlaybackQueue.AddToQueue | src/hooks/usePlayback.js:49-51 | appends the track; the cursor is unchanged and the player is not called |
| Playback.PlaybackQueue.ClearQueue | src/hooks/usePlayback.js:54-57 | an empty queue with the cursor at 0 |
| SpotifyAuth.RandomString | src/services/spotify/spotifyAuth.js:9-13 | one character per byte; character i is alphabet[byte_i mod 62] |
| SpotifyAuth.AlphabetIsAlphaNumeric | src/services/spotify/spotifyAuth.js:10 | the 62-character alphabet is [A-Za-z0-9] without repeats |
| SpotifyAuth.VerifierIsValid | src/services/spotify/spotifyAuth.js:16-18 | the 64-character verifier meets the length 43..128 and unreserved-character rule of section 4.1 of RFC 7636 |
| SpotifyAuth.Base64UrlRoundTrip | src/services/spotify/spotifyAuth.js:29-32 | the rewrite of base64 yields only base64url characters (section 5 of RFC 4648), and mapping '-'/'_' back gives the base64 text without '=' |
| SpotifyAuth.CodeChallenge | src/services/spotify/spotifyAuth.js:21-33 | the S256 challenge contains none of '=', '+', '/' |
| SpotifyAuth.RedirectToSpotifyAuth | src/services/spotify/spotifyAuth.js:36-56 | stores the 64-character verifier under 'code_verifier' and the 16-character state under 'auth_state', nothing else; the authorize request carries that state, the verifier's challenge, "code", "S256", the client id, redirect uri and scopes |
| SpotifyAuth.ExchangeCodeForToken | src/services/spotify/spotifyAuth.js:59-103 | without a stored verifier it fails with 'No code verifier found' before any request; a non-ok answer or a network failure leaves the store unchanged; success stores the token and the expiry now + expires_in·1000 and removes the verifier and state |
| SpotifyAuth.GetAccessToken | src/services/spotify/spotifyAuth.js:106-108 | the value stored under 'access_token', or null |
| SpotifyAuth.Logout | src/services/spotify/spotifyAuth.js:111-116 | removes exactly the four auth keys; other keys are untouched |
| SpotifyAuth.IsAuthenticated | src/services/spotify/spotifyAuth.js:119-128 | true iff the token is present and non-empty and the expiry parses to a number strictly after now |
| SpotifyAuth.AuthenticatedUntilExpiry | src/services/spotify/spotifyAuth.js:90-128 | after a grant the user is authenticated iff now < grant time + expires_in·1000 |
| SpotifyAuth.LoggedOutIsNotAuthenticated | src/services/spotify/spotifyAuth.js:111-128 | after logout isAuthenticated is false |
| Callback.CallbackPage.constructor | src/pages/Callback.jsx:8 | the error starts null and no navigation is pending |
| Callback.CallbackPage.HandleCallback | src/pages/Callback.jsx:11-46 | the exchange runs iff there is no error parameter, the state equals the stored one (null === null) and a code is present; each failure sets its message and navigates to '/' after 3000 ms; success navigates at once; the store changes only on a successful exchange |
| AuthContext.FindFirst | src/context/AuthContext.jsx:21 | the first segment with the prefix, or undefined exactly when none has it |
| AuthContext.FindFirstIsFirst | src/context/AuthContext.jsx:21 | segments before the first match are skipped, whatever follows |
| AuthContext.TokenHasNoSeparators | src/context/AuthContext.jsx:18-22 | a token read from a fragment contains neither '&' nor '=' |
| AuthContext.ParamFromFragment | src/context/AuthContext.jsx:18-22 | a parameter written as name=value among '&'-separated parameters is read back exactly, with nothing URL-decoded |
| AuthContext.TokenFromFragment | src/context/AuthContext.jsx:18-22 | the fragment response of section 4.2.2 of RFC 6749: "access_token=<t>" is read back as t; a further '=' cuts the rest off |
| AuthContext.SingleParamFragment | src/context/AuthContext.jsx:18-22 | a fragment holding only access_token=t yields t |
| AuthContext.AuthProvider.constructor | src/context/AuthContext.jsx:6 | the token starts as '' |
| AuthContext.AuthProvider.LoadToken | src/context/AuthContext.jsx:14-36 | a truthy fragment token is stored under 'spotify_token', becomes the token and clears the hash; a fragment without one changes nothing; without a fragment a truthy stored token is loaded |
| AuthContext.AuthProvider.HandleLogout | src/context/AuthContext.jsx:42-45 | as written: the token becomes null and only the key 'token' is removed, so 'spotify_token' survives |
| AuthContext.AuthProvider.HandleLogoutForgetting | src/context/AuthContext.jsx:42-45 | corrected: the token becomes null and 'spotify_token' is removed |
| AuthContext.LogoutThenReloadAsWritten | src/context/AuthContext.jsx:14-45 | sign-in from a fragment, logout as written, then a reload without fragment: the token is back |
| AuthContext.LogoutThenReloadForgetting | src/context/AuthContext.jsx:14-45 | the same sequence with the corrected logout ends with the empty token |
| SpotifyPlayer.PlayTrackBody | src/services/spotify/spotifyPlayer.js:114-127 | always device_id; uris = [uri] iff the uri contains "track", else context_uri = uri; position_ms iff position > 0 |
| SpotifyPlayer.PlayTrackBodyOneTarget | src/services/spotify/spotifyPlayer.js:119-123 | exactly one of uris and context_uri is set |
| SpotifyPlayer.TrackUriPlaysAsTrack | src/services/spotify/spotifyPlayer.js:119-123 | a track uri is sent as a one-track uris list |
| SpotifyPlayer.ContextUriByName | src/services/spotify/spotifyPlayer.js:119-123 | the test is by substring: a playlist or album uri whose id has no 'r' is sent as context_uri, and one whose id starts with "track" is sent as uris |
| SpotifyPlayer.PlayerState.constructor | src/services/spotify/spotifyPlayer.js:3-4 | player and deviceId start null |
| SpotifyPlayer.PlayerState.SetupPlayer | src/services/spotify/spotifyPlayer.js:28-35 | a new player holding the access token replaces the old one |
| SpotifyPlayer.PlayerState.OnReady | src/services/spotify/spotifyPlayer.js:62-67 | the 'ready' listener of a set-up player records the reported device id and keeps the player |
| SpotifyPlayer.PlayerState.DisconnectPlayer | src/services/spotify/spotifyPlayer.js:98-104 | with a player: disconnect and clear both; without one: no change |
| SpotifyPlayer.PlayerState.PlayTrack | src/services/spotify/spotifyPlayer.js:107-141 | without a device id it fails with the 'Initialize the player first' message before reading the token or sending anything; otherwise one PUT with PlayTrackBody; a rejected fetch gives its own error, a non-ok response 'Failed to start playback' |
| SpotifyPlayer.PlayerState.PlayTracks | src/services/spotify/spotifyPlayer.js:144-168 | the same guard; the device id in the query string and a body that always has uris and position_ms, even 0; a rejected fetch gives its own error, a non-ok response 'Failed to play tracks' |
| SpotifyPlayer.PlayerState.TransferPlayback | src/services/spotify/spotifyPlayer.js:219-241 | the same guard; then a PUT naming this device with play false; a rejected fetch gives its own error, a non-ok response 'Failed to transfer playback' |
| SpotifyPlayer.PlayerState.Control | src/services/spotify/spotifyPlayer.js:171-210 | a control is forwarded to the SDK iff a player exists; otherwise nothing happens |
| SpotifyPlayer.PlayerState.GetCurrentStateOf | src/services/spotify/spotifyPlayer.js:213-216 | null without a player, otherwise the SDK's answer |
| SpotifyApi.FetchWithAuth | src/services/spotify/spotify.js:5-27 | without a token it fails with 'No access token available' and sends nothing; otherwise one request to the base URL + endpoint with the bearer token; a rejected fetch, and an ok answer whose body is not JSON, give their own error; a non-ok answer gives the body's message, or 'API request failed' when that is falsy |
| SpotifyApi.NamedFilters | src/services/spotify/spotify.js:78-82 | five named filters: target_key, target_tempo, target_energy, target_danceability, target_valence |
| SpotifyApi.BuildRecommendationsUrl | src/services/spotify/spotify.js:76-87 | the URL built by successive guarded appends is the recommendations URL |
| SpotifyApi.RecommendationsQuery | src/services/spotify/spotify.js:77-82 | split on '&', the URL is the seed part, "limit=20", then name=value for each truthy filter in the fixed order |
| SpotifyApi.RecommendationsUrlPrefix | src/services/spotify/spotify.js:77 | the URL always starts with …/recommendations?seed_tracks=<seed>&limit=20 |
| SpotifyApi.FalsyFiltersOmitted | src/services/spotify/spotify.js:78-82 | key 0, energy 0 and an empty bpm string are omitted, as if undefined |
| SpotifyApi.AllFiltersInOrder | src/services/spotify/spotify.js:78-82 | with all five filters truthy, the parameters are target_key, target_tempo, target_energy, target_danceability, target_valence in that order |
| UseSearch.Lists.With | src/hooks/useSearch.js:44 | the spread update replaces one category and keeps the other two |
| UseSearch.SearchHook.constructor | src/hooks/useSearch.js:5-11 | empty results, not loading, no error |
| UseSearch.SearchHook.SearchAll | src/hooks/useSearch.js:14-39 | a blank query empties all three lists and sends nothing, with loading and error untouched; success sets each list to its items or [] and returns the data; failure keeps the lists, sets the error and returns null; loading ends false |
| UseSearch.SearchHook.SearchCategory | src/hooks/useSearch.js:42-105 | the other two categories never change; a blank query empties its own list only; success replaces its own list; failure keeps the lists, sets the error and returns []; loading ends false |
| UseSearch.SearchHook.ClearResults | src/hooks/useSearch.js:108-111 | all lists empty and the error null; loading untouched |
| UsePlaylists.PlaylistsHook.constructor | src/hooks/usePlaylists.js:10-13 | no playlists, not loading, no error |
| UsePlaylists.PlaylistsHook.LoadPlaylists | src/hooks/usePlaylists.js:16-30 | asks for 50; success replaces the list and returns it; failure keeps it, sets the error and returns []; loading ends false |
| UsePlaylists.PlaylistsHook.Create | src/hooks/usePlaylists.js:33-51 | a falsy user id fails with 'User ID is required to create a playlist' before any request or state change; success prepends the playlist and keeps the rest in order; failure keeps the list, sets the error and passes the failure on |
| UsePlaylists.PlaylistsHook.AddTracksTo | src/hooks/usePlaylists.js:54-67 | true iff the call succeeds, never a failure; the playlists are unchanged |
| UsePlaylists.PlaylistsHook.RemoveTracksFrom | src/hooks/usePlaylists.js:70-83 | true iff the call succeeds, never a failure; the playlists are unchanged |
| UsePlaylists.PlaylistsHook.GetTracks | src/hooks/usePlaylists.js:86-99 | the items on success, [] with the error set on failure; the playlists are unchanged |

## Left out

- Crypto primitives: `crypto.getRandomValues`, SHA-256 (`crypto.subtle.digest`) and `btoa` are foreign calls. The random bytes are parameters, and the digest and base64 encoder are uninterpreted function parameters. Only the byte-to-character mapping and the base64url rewrite are modelled.
- SpotifyAuth.RedirectToSpotifyAuth: it requires byte sequences of lengths 64 and 16, the lengths `crypto.getRandomValues` returns. The redirect itself (`window.location.href`) and `URLSearchParams` percent-encoding are not modelled. The request is kept as a record of its fields.
- SpotifyAuth.ExchangeCodeForToken: the POST body is a record, without form encoding. A granted answer is assumed to carry `access_token` and a numeric `expires_in`; an answer without them would store "undefined"/"NaN".
- The wall clock (`Date.now()`) is a parameter. `Number#toString` of the expiry time is modelled for integers only.
- Real-number formatting: the `toFixed(1)` part of formatNumber is a parameter (`fixed1`), and so is the rendering of numeric filter values in the recommendations URL (`numberText`). NaN and non-integer durations are not modelled: durations are natural numbers of milliseconds.
- `String.prototype.trim` and the white space `parseInt` skips before the number (Text.ParseInt) are modelled for ASCII white space (space, tab, line feed, carriage return, vertical tab, form feed) only. Unicode spaces are not.
- SimilarTracks.TempoClose: a tempo is undefined, null or a real number. Other JavaScript values in the `bpm` field, such as strings, are not modelled, and real arithmetic stands in for floating point.
- The Web Playback SDK lifecycle is left out: script injection, `initializePlayer`, the listeners other than 'ready', and `connect`. The SDK player is an opaque handle, and the calls made on it are recorded.
- PlayerContext, the UI components and pages other than the callback's decision sequence, the thin REST wrappers and the truncated files are not part of this model.
- The playback, search and playlist hooks see React state updates as immediate. Batching, re-renders, stale closures and `useCallback` dependency lists are not modelled.
- UseSearch.SearchHook.SearchCategory: a per-type answer is assumed to carry `items`. An answer without it would store undefined in that category. The case where `searchTracks` (or the artists/playlists variant) returns undefined and reading `data.items` throws is not modelled.
- UsePlaylists.PlaylistsHook.LoadPlaylists: an answer is assumed to carry `items`, and the same holds for GetTracks. The `err.message` of a failure is a string.
- Search and playlist requests are recorded as (query, types, limit) or call records. The URL encoding of `/search` and the playlist endpoints is not part of this model.
- musicAnalysis.js imports `MUSICAL_KEYS` and `MODES`, which constants.js does not export (its exports are at lines 1, 2, 5, 40 and 43). They are parameters of MusicAnalysis.GetKeyName. As written, the import either fails to link or binds `undefined`; in the second case `MUSICAL_KEYS[key]` (musicAnalysis.js:8) throws a TypeError for every key other than -1, so no key name is ever produced. The model describes getKeyName as it behaves once both tables are supplied.
- SpotifyApi.FetchWithAuth: the `options` argument (spotify.js:5, 13-18) is not modelled. Its fields and headers are spread into the request, after the bearer and content-type headers, so a caller could override them. No caller in spotify.js passes options.
- `console` logging is not modelled.

## Findings

| source | as written | input that shows it | evidently intended | confidence | as-written member | corrected member |
|---|---|---|---|---|---|---|
| src/services/utils/formatters.js:4-6 | the seconds field is rounded without carrying into the minutes | ms = 59500 prints "0:60"; ms = 119999 prints "1:60" | "1:00" and "2:00": round to whole seconds first, then split into minutes and seconds | not executed | Formatters.FormatDurationSixtySeconds | Formatters.FormatDurationCarriedReadsBack |
| src/context/AuthContext.jsx:44 | handleLogout removes the key 'token', which nothing writes; the token lives under 'spotify_token' (lines 25 and 31) | sign in with "#access_token=t", log out, reload without a fragment: the token t is loaded again | remove 'spotify_token', so that the reload stays signed out | not executed | AuthContext.LogoutThenReloadAsWritten | AuthContext.LogoutThenReloadForgetting |

/** The module state of src/services/spotify/spotifyPlayer.js — the SDK
    player and the device id its 'ready' listener reports — with the
    operations that read it: the device-id guards and request bodies of the
    Web API play and transfer calls, disconnecting, and the controls that do
    nothing without a player. The SDK itself is foreign: its player is an
    opaque handle and the calls made on it are recorded in `sdkCalls`; the
    HTTP requests issued are recorded in `requests`, and how each fetch
    ends (rejected, ok, not ok) is a parameter. */
module SpotifyPlayer {
  import opened Wrappers
  import opened Text
  import opened Storage
  import SpotifyAuth
  import Formatters

  const PlayUrl: string := "https://api.spotify.com/v1/me/player/play"
  const TransferUrl: string := "https://api.spotify.com/v1/me/player"

  const NoDeviceForTrackMessage: string := "No device ID available. Initialize the player first."
  const NoDeviceMessage: string := "No device ID available"

  /** The SDK player created by setupPlayer, holding the token its
      getOAuthToken callback hands out. */
  datatype PlayerHandle = PlayerHandle(accessToken: string)

  /** A JSON request body; an absent field is None. */
  datatype Body =
    | PlayBody(deviceId: Option<string>, uris: Option<seq<string>>, contextUri: Option<string>, positionMs: Option<int>)
    | TransferBody(deviceIds: seq<string>, play: bool)

  /** A PUT to the Web API with the bearer token read from the store (null
      when there is none). */
  datatype Request = Request(url: string, bearer: Option<string>, body: Body)

  /** How a fetch ends: it rejects with a message of its own, or a
      response arrives, ok or not. */
  datatype FetchOutcome = Rejected(reason: string) | Response(ok: bool)

  /** The calls made on the SDK player. */
  datatype SdkCall = TogglePlay | Resume | Pause | NextTrack | PreviousTrack | Seek(positionMs: int) | SetVolume(volume: real)
                   | GetCurrentState | Disconnect

  /** The body playTrack sends: the device id always; the uri as a one-track
      `uris` list when it contains "track", otherwise as `context_uri`;
      position_ms only when the position is positive. */
  function PlayTrackBody(deviceId: string, uri: string, position: int): (b: Body)
    ensures b.PlayBody? && b.deviceId == Some(deviceId)
    ensures b.uris.Some? <==> Contains(uri, "track")
    ensures b.uris.Some? ==> b.uris.value == [uri]
    ensures b.contextUri.Some? <==> !Contains(uri, "track")
    ensures b.contextUri.Some? ==> b.contextUri.value == uri
    ensures b.positionMs.Some? <==> position > 0
    ensures b.positionMs.Some? ==> b.positionMs.value == position
  {
    PlayBody(Some(deviceId),
             if Contains(uri, "track") then Some([uri]) else None,
             if Contains(uri, "track") then None else Some(uri),
             if position > 0 then Some(position) else None)
  }

  /** Exactly one of `uris` and `context_uri` is set, so the two play modes
      never mix. */
  lemma PlayTrackBodyOneTarget(deviceId: string, uri: string, position: int)
    ensures var b := PlayTrackBody(deviceId, uri, position);
            b.uris.Some? != b.contextUri.Some?
  {
  }

  /** A track uri built by toSpotifyUri is played as a track list of one. */
  lemma TrackUriPlaysAsTrack(deviceId: string, id: string, position: int)
    ensures PlayTrackBody(deviceId, Formatters.ToSpotifyUri(id), position).uris == Some([Formatters.ToSpotifyUri(id)])
  {
    var u := Formatters.ToSpotifyUri(id);
    assert u[8..13] == "track";
    ContainsAt(u, "track", 8);
  }

  /** The substring test is not a type test: a playlist uri whose id
      contains "track" is sent as a track list, and a playlist or album uri
      whose id has no 'r' is sent as a context. */
  lemma ContextUriByName(deviceId: string, kind: string, id: string)
    requires kind == "playlist" || kind == "album"
    ensures 'r' !in id ==> PlayTrackBody(deviceId, Formatters.ToSpotifyUri(id, kind), 0).contextUri == Some(Formatters.ToSpotifyUri(id, kind))
    ensures PlayTrackBody(deviceId, Formatters.ToSpotifyUri("track" + id, kind), 0).uris.Some?
  {
    var u := Formatters.ToSpotifyUri(id, kind);
    if 'r' !in id {
      assert 'r' !in u by {
        assert u == "spotify:" + kind + ":" + id;
        assert 'r' !in "spotify:" + kind + ":";
      }
      NotContainsMissingCharAt(u, "track", 1);
    }
    var v := Formatters.ToSpotifyUri("track" + id, kind);
    var at := |"spotify:" + kind + ":"|;
    assert v == "spotify:" + kind + ":" + "track" + id;
    assert v[at..at + 5] == "track";
    ContainsAt(v, "track", at);
  }

  class PlayerState {
    var player: Option<PlayerHandle>
    var deviceId: Option<string>
    ghost var requests: seq<Request>
    ghost var sdkCalls: seq<SdkCall>

    /** A device id is only ever reported by the 'ready' listener of a
        player that exists. */
    ghost predicate Valid()
      reads this
    {
      deviceId.Some? ==> player.Some?
    }

    /** `let player = null; let deviceId = null;` */
    constructor ()
      ensures player == None && deviceId == None && requests == [] && sdkCalls == []
      ensures Valid()
    {
      player := None;
      deviceId := None;
      requests := [];
      sdkCalls := [];
    }

    /** setupPlayer(accessToken, …): a new SDK player replaces any old one;
        the device id is not touched. */
    method SetupPlayer(accessToken: string)
      modifies this
      ensures player == Some(PlayerHandle(accessToken)) && deviceId == old(deviceId)
      ensures requests == old(requests) && sdkCalls == old(sdkCalls)
      ensures Valid()
    {
      player := Some(PlayerHandle(accessToken));
    }

    /** The 'ready' listener, which only a set-up player has: record the
        device id it reports. */
    method OnReady(id: string)
      requires player.Some?
      modifies this
      ensures deviceId == Some(id) && player == old(player)
      ensures requests == old(requests) && sdkCalls == old(sdkCalls)
      ensures Valid()
    {
      deviceId := Some(id);
    }

    /** disconnectPlayer(): with a player, disconnect it and forget both the
        player and the device id; without one, do nothing. */
    method DisconnectPlayer()
      modifies this
      ensures old(player).Some? ==> player == None && deviceId == None && sdkCalls == old(sdkCalls) + [Disconnect]
      ensures old(player).None? ==> player == None && deviceId == old(deviceId) && sdkCalls == old(sdkCalls)
      ensures requests == old(requests)
      ensures old(Valid()) ==> Valid() && deviceId == None
    {
      if player.Some? {
        sdkCalls := sdkCalls + [Disconnect];
        player := None;
        deviceId := None;
      }
    }

    /** playTrack(uri, position = 0): without a (truthy) device id it throws
        before reading the token or sending anything; otherwise it sends one
        PUT with PlayTrackBody. A rejected fetch passes its own error on; a
        response that is not ok throws 'Failed to start playback'. */
    method PlayTrack(storage: LocalStorage, uri: string, outcome: FetchOutcome, position: int := 0) returns (r: Result<()>)
      modifies this
      ensures player == old(player) && deviceId == old(deviceId) && sdkCalls == old(sdkCalls)
      ensures !Truthy(deviceId) ==> r == Err(NoDeviceForTrackMessage) && requests == old(requests)
      ensures Truthy(deviceId) ==>
                requests == old(requests) + [Request(PlayUrl, SpotifyAuth.GetAccessToken(storage), PlayTrackBody(deviceId.value, uri, position))]
      ensures Truthy(deviceId) && outcome.Rejected? ==> r == Err(outcome.reason)
      ensures Truthy(deviceId) && outcome.Response? ==> r == if outcome.ok then Ok(()) else Err("Failed to start playback")
    {
      if !Truthy(deviceId) {
        return Err(NoDeviceForTrackMessage);
      }
      var token := SpotifyAuth.GetAccessToken(storage);
      var body := PlayTrackBody(deviceId.value, uri, position);
      requests := requests + [Request(PlayUrl, token, body)];
      match outcome {
        case Rejected(reason) =>
          return Err(reason);
        case Response(ok) =>
          if !ok {
            return Err("Failed to start playback");
          }
      }
      r := Ok(());
    }

    /** playTracks(uris, position = 0): the same guard with its own message;
        the device id goes in the query string and the body always carries
        the uris and position_ms, even when the position is 0; a rejected
        fetch passes its own error on, and a response that is not ok throws
        'Failed to play tracks'. */
    method PlayTracks(storage: LocalStorage, uris: seq<string>, outcome: FetchOutcome, position: int := 0) returns (r: Result<()>)
      modifies this
      ensures player == old(player) && deviceId == old(deviceId) && sdkCalls == old(sdkCalls)
      ensures !Truthy(deviceId) ==> r == Err(NoDeviceMessage) && requests == old(requests)
      ensures Truthy(deviceId) ==>
                requests == old(requests) + [Request(PlayUrl + "?device_id=" + deviceId.value, SpotifyAuth.GetAccessToken(storage),
                                                     PlayBody(None, Some(uris), None, Some(position)))]
      ensures Truthy(deviceId) && outcome.Rejected? ==> r == Err(outcome.reason)
      ensures Truthy(deviceId) && outcome.Response? ==> r == if outcome.ok then Ok(()) else Err("Failed to play tracks")
    {
      if !Truthy(deviceId) {
        return Err(NoDeviceMessage);
      }
      var token := SpotifyAuth.GetAccessToken(storage);
      var body := PlayBody(None, Some(uris), None, Some(position));
      requests := requests + [Request(PlayUrl + "?device_id=" + deviceId.value, token, body)];
      match outcome {
        case Rejected(reason) =>
          return Err(reason);
        case Response(ok) =>
          if !ok {
            return Err("Failed to play tracks");
          }
      }
      r := Ok(());
    }

    /** transferPlayback(): the same guard; then a PUT naming this device
        with play: false; a rejected fetch passes its own error on, and a
        response that is not ok throws 'Failed to transfer playback'. */
    method TransferPlayback(storage: LocalStorage, outcome: FetchOutcome) returns (r: Result<()>)
      modifies this
      ensures player == old(player) && deviceId == old(deviceId) && sdkCalls == old(sdkCalls)
      ensures !Truthy(deviceId) ==> r == Err(NoDeviceMessage) && requests == old(requests)
      ensures Truthy(deviceId) ==>
                requests == old(requests) + [Request(TransferUrl, SpotifyAuth.GetAccessToken(storage), TransferBody([deviceId.value], false))]
      ensures Truthy(deviceId) && outcome.Rejected? ==> r == Err(outcome.reason)
      ensures Truthy(deviceId) && outcome.Response? ==> r == if outcome.ok then Ok(()) else Err("Failed to transfer playback")
    {
      if !Truthy(deviceId) {
        return Err(NoDeviceMessage);
      }
      var token := SpotifyAuth.GetAccessToken(storage);
      requests := requests + [Request(TransferUrl, token, TransferBody([deviceId.value], false))];
      match outcome {
        case Rejected(reason) =>
          return Err(reason);
        case Response(ok) =>
          if !ok {
            return Err("Failed to transfer playback");
          }
      }
      r := Ok(());
    }

    /** togglePlay, resume, pause, nextTrack, previousTrack, seek and
        setVolume: without a player nothing is called (the result is
        undefined); with one, the call is passed to it. */
    method Control(call: SdkCall) returns (forwarded: bool)
      requires call != GetCurrentState && call != Disconnect
      modifies this
      ensures forwarded <==> old(player).Some?
      ensures sdkCalls == if forwarded then old(sdkCalls) + [call] else old(sdkCalls)
      ensures player == old(player) && deviceId == old(deviceId) && requests == old(requests)
    {
      if player.None? {
        return false;
      }
      sdkCalls := sdkCalls + [call];
      forwarded := true;
    }

    /** getCurrentState(): null without a player, otherwise whatever the
        SDK answers (given as a parameter). */
    method GetCurrentStateOf<S>(sdkAnswer: Option<S>) returns (r: Option<S>)
      modifies this
      ensures old(player).None? ==> r == None && sdkCalls == old(sdkCalls)
      ensures old(player).Some? ==> r == sdkAnswer && sdkCalls == old(sdkCalls) + [GetCurrentState]
      ensures player == old(player) && deviceId == old(deviceId) && requests == old(requests)
    {
      if player.None? {
        return None;
      }
      sdkCalls := sdkCalls + [GetCurrentState];
      r := sdkAnswer;
    }
  }

  /** A caller's view of the device-id guard: nothing is sent before the
      'ready' event, a play is sent after it, and after disconnecting the
      guard is closed again. */
  method DeviceGuardWalkthrough(storage: LocalStorage, id: string, uri: string)
    requires id != ""
  {
    var p := new PlayerState();
    var r := p.PlayTrack(storage, uri, Response(true));
    assert r == Err(NoDeviceForTrackMessage) && p.requests == [];
    p.SetupPlayer("token");
    r := p.PlayTrack(storage, uri, Response(true));
    assert r.Err? && p.requests == [];
    p.OnReady(id);
    r := p.PlayTrack(storage, uri, Response(true));
    assert r == Ok(()) && |p.requests| == 1;
    r := p.PlayTrack(storage, uri, Rejected("Failed to fetch"));
    assert r == Err("Failed to fetch") && |p.requests| == 2;
    p.DisconnectPlayer();
    r := p.PlayTrack(storage, uri, Response(true));
    assert r.Err? && |p.requests| == 2;
    var forwarded := p.Control(Pause);
    assert !forwarded;
  }
}

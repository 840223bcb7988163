/** The usePlaylists hook of src/hooks/usePlaylists.js, for a given user id:
    the list of the user's playlists, a loading flag and an error, updated
    around one awaited Web API call per operation. Whether the call
    resolves (and with what) or rejects (and with which message) is a
    parameter; the calls issued are recorded in `requests`. */
module UsePlaylists {
  import opened Wrappers
  import opened Storage

  /** A playlist as returned by the Web API; its fields are not inspected. */
  datatype Playlist = Playlist(id: string, name: string)

  /** An entry of a playlist's track list. */
  datatype PlaylistTrack = PlaylistTrack(uri: string)

  /** The Web API calls the hook makes. */
  datatype PlaylistCall =
    | ListPlaylists(limit: int)
    | CreatePlaylist(userId: string, name: string, description: string, isPublic: bool)
    | AddTracks(playlistId: string, uris: seq<string>)
    | RemoveTracks(playlistId: string, uris: seq<string>)
    | ListTracks(playlistId: string)

  const UserIdRequiredMessage: string := "User ID is required to create a playlist"
  /** The page size loadPlaylists asks for. */
  const LoadLimit: int := 50

  class PlaylistsHook {
    const userId: Option<string>
    var playlists: seq<Playlist>
    var loading: bool
    var error: Option<string>
    ghost var requests: seq<PlaylistCall>

    /** usePlaylists(userId): no playlists, not loading, no error. */
    constructor (userId: Option<string>)
      ensures this.userId == userId
      ensures playlists == [] && !loading && error == None && requests == []
    {
      this.userId := userId;
      playlists := [];
      loading := false;
      error := None;
      requests := [];
    }

    /** loadPlaylists(): asks for 50 playlists; on success they replace the
        list and are returned, on failure the list stays, the error is the
        message and [] is returned. */
    method LoadPlaylists(outcome: Result<seq<Playlist>>) returns (r: seq<Playlist>)
      modifies this
      ensures requests == old(requests) + [ListPlaylists(LoadLimit)] && !loading
      ensures outcome.Ok? ==> playlists == outcome.value && r == outcome.value && error == None
      ensures outcome.Err? ==> playlists == old(playlists) && r == [] && error == Some(outcome.message)
    {
      loading := true;
      error := None;
      requests := requests + [ListPlaylists(LoadLimit)];
      match outcome {
        case Ok(items) =>
          playlists := items;
          r := items;
        case Err(message) =>
          error := Some(message);
          r := [];
      }
      loading := false;
    }

    /** create(name, description = '', isPublic = true). Without a truthy
        user id it fails at once, before any request or state change.
        Otherwise the playlist is created; on success it is put at the front
        of the list and returned, on failure the list stays, the error is the
        message and the failure is passed on to the caller. */
    method Create(name: string, outcome: Result<Playlist>, description: string := "", isPublic: bool := true)
      returns (r: Result<Playlist>)
      modifies this
      ensures !Truthy(userId) ==>
                r == Err(UserIdRequiredMessage) && playlists == old(playlists) && loading == old(loading)
                && error == old(error) && requests == old(requests)
      ensures Truthy(userId) ==>
                requests == old(requests) + [CreatePlaylist(userId.value, name, description, isPublic)]
                && !loading && r == outcome
      ensures Truthy(userId) && outcome.Ok? ==> playlists == [outcome.value] + old(playlists) && error == None
      ensures Truthy(userId) && outcome.Err? ==> playlists == old(playlists) && error == Some(outcome.message)
    {
      if !Truthy(userId) {
        return Err(UserIdRequiredMessage);
      }
      loading := true;
      error := None;
      requests := requests + [CreatePlaylist(userId.value, name, description, isPublic)];
      match outcome {
        case Ok(newPlaylist) =>
          playlists := [newPlaylist] + playlists;
          r := Ok(newPlaylist);
        case Err(message) =>
          error := Some(message);
          r := Err(message);
      }
      loading := false;
    }

    /** addTracks(playlistId, trackUris): true on success, false with the
        error set on failure; the playlist list is not touched. */
    method AddTracksTo(playlistId: string, trackUris: seq<string>, outcome: Result<()>) returns (ok: bool)
      modifies this
      ensures requests == old(requests) + [AddTracks(playlistId, trackUris)] && !loading
      ensures playlists == old(playlists)
      ensures ok <==> outcome.Ok?
      ensures error == if outcome.Ok? then None else Some(outcome.message)
    {
      ok := Acknowledge(AddTracks(playlistId, trackUris), outcome);
    }

    /** removeTracks(playlistId, trackUris): the same shape as addTracks. */
    method RemoveTracksFrom(playlistId: string, trackUris: seq<string>, outcome: Result<()>) returns (ok: bool)
      modifies this
      ensures requests == old(requests) + [RemoveTracks(playlistId, trackUris)] && !loading
      ensures playlists == old(playlists)
      ensures ok <==> outcome.Ok?
      ensures error == if outcome.Ok? then None else Some(outcome.message)
    {
      ok := Acknowledge(RemoveTracks(playlistId, trackUris), outcome);
    }

    /** The try/catch/finally shared by addTracks and removeTracks. */
    method Acknowledge(call: PlaylistCall, outcome: Result<()>) returns (ok: bool)
      modifies this
      ensures requests == old(requests) + [call] && !loading
      ensures playlists == old(playlists)
      ensures ok <==> outcome.Ok?
      ensures error == if outcome.Ok? then None else Some(outcome.message)
    {
      loading := true;
      error := None;
      requests := requests + [call];
      match outcome {
        case Ok(_) =>
          ok := true;
        case Err(message) =>
          error := Some(message);
          ok := false;
      }
      loading := false;
    }

    /** getTracks(playlistId): the track items on success, [] with the
        error set on failure; the playlist list is not touched. */
    method GetTracks(playlistId: string, outcome: Result<seq<PlaylistTrack>>) returns (r: seq<PlaylistTrack>)
      modifies this
      ensures requests == old(requests) + [ListTracks(playlistId)] && !loading
      ensures playlists == old(playlists)
      ensures outcome.Ok? ==> r == outcome.value && error == None
      ensures outcome.Err? ==> r == [] && error == Some(outcome.message)
    {
      loading := true;
      error := None;
      requests := requests + [ListTracks(playlistId)];
      match outcome {
        case Ok(items) =>
          r := items;
        case Err(message) =>
          error := Some(message);
          r := [];
      }
      loading := false;
    }
  }

  /** A caller's view: without a user id nothing is sent; a created
      playlist comes first in the list; a failed reload keeps it. */
  method CreateWalkthrough(existing: seq<Playlist>, made: Playlist)
  {
    var anonymous := new PlaylistsHook(None);
    var r := anonymous.Create("Mix", Ok(made));
    assert r == Err(UserIdRequiredMessage) && anonymous.requests == [];

    var hook := new PlaylistsHook(Some("user1"));
    var loaded := hook.LoadPlaylists(Ok(existing));
    r := hook.Create("Mix", Ok(made));
    assert hook.playlists == [made] + existing && hook.playlists[0] == made;
    assert hook.requests[1] == CreatePlaylist("user1", "Mix", "", true);
    loaded := hook.LoadPlaylists(Err("Network error"));
    assert loaded == [] && hook.playlists[0] == made && hook.error == Some("Network error");
  }
}

/** The usePlayback hook of src/hooks/usePlayback.js: a queue of tracks and
    a cursor into it, updated after each awaited call into the player
    context. Whether that call resolves or rejects is a parameter of each
    operation; the calls issued are recorded in the ghost field `requests`. */
module Playback {

  /** A track as the queue holds it; only its uri is sent to the player. */
  datatype Track = Track(id: string, uri: string)

  /** The player-context functions the hook awaits. */
  datatype PlayerCall = Play(uri: string) | PlayMultiple(uris: seq<string>, startIndex: int) | Next | Previous

  function Uris(tracks: seq<Track>): (r: seq<string>)
    ensures |r| == |tracks| && forall i :: 0 <= i < |tracks| ==> r[i] == tracks[i].uri
  {
    seq(|tracks|, i requires 0 <= i < |tracks| => tracks[i].uri)
  }

  class PlaybackQueue {
    var queue: seq<Track>
    var currentIndex: int
    /** The calls made into the player context, oldest first. */
    ghost var requests: seq<PlayerCall>

    /** The cursor points into the queue, or the queue is empty and the
        cursor is at 0. */
    ghost predicate IndexInRange()
      reads this
    {
      (queue == [] && currentIndex == 0) || 0 <= currentIndex < |queue|
    }

    /** useState([]) and useState(0). */
    constructor ()
      ensures queue == [] && currentIndex == 0 && requests == []
      ensures IndexInRange()
    {
      queue := [];
      currentIndex := 0;
      requests := [];
    }

    /** playTrack(track): play its uri; on success the queue is just this
        track at index 0. A rejected play is caught and logged, leaving the
        queue and cursor as they were. */
    method PlayTrack(track: Track, playerResolves: bool)
      modifies this
      ensures requests == old(requests) + [Play(track.uri)]
      ensures playerResolves ==> queue == [track] && currentIndex == 0
      ensures !playerResolves ==> queue == old(queue) && currentIndex == old(currentIndex)
      ensures old(IndexInRange()) ==> IndexInRange()
    {
      requests := requests + [Play(track.uri)];
      if playerResolves {
        queue := [track];
        currentIndex := 0;
      }
    }

    /** playTrackList(tracks, startIndex = 0): play all uris from startIndex;
        on success the queue is the list and the cursor is startIndex, which
        is not checked against the list's length. A rejection is caught. */
    method PlayTrackList(tracks: seq<Track>, playerResolves: bool, startIndex: int := 0)
      modifies this
      ensures requests == old(requests) + [PlayMultiple(Uris(tracks), startIndex)]
      ensures playerResolves ==> queue == tracks && currentIndex == startIndex
      ensures !playerResolves ==> queue == old(queue) && currentIndex == old(currentIndex)
      ensures old(IndexInRange()) && (playerResolves ==> (tracks == [] && startIndex == 0) || 0 <= startIndex < |tracks|)
              ==> IndexInRange()
      ensures playerResolves && tracks != [] && (startIndex < 0 || startIndex >= |tracks|) ==> !IndexInRange()
    {
      requests := requests + [PlayMultiple(Uris(tracks), startIndex)];
      if playerResolves {
        queue := tracks;
        currentIndex := startIndex;
      }
    }

    /** playNext(): only while the cursor is before the last track, await
        next() and then move the cursor one forward. A rejected next() is not
        caught: the call rejects and the cursor stays. Otherwise nothing is
        called and nothing changes. */
    method PlayNext(playerResolves: bool) returns (rejected: bool)
      modifies this
      ensures queue == old(queue)
      ensures old(currentIndex) < |old(queue)| - 1 ==> requests == old(requests) + [Next]
      ensures old(currentIndex) >= |old(queue)| - 1 ==> requests == old(requests)
      ensures rejected <==> old(currentIndex) < |old(queue)| - 1 && !playerResolves
      ensures currentIndex == if old(currentIndex) < |old(queue)| - 1 && playerResolves then old(currentIndex) + 1 else old(currentIndex)
      ensures old(IndexInRange()) ==> IndexInRange()
    {
      rejected := false;
      if currentIndex < |queue| - 1 {
        requests := requests + [Next];
        if !playerResolves {
          rejected := true;
          return;
        }
        currentIndex := currentIndex + 1;
      }
    }

    /** playPrevious(): only while the cursor is past 0, await previous() and
        then move the cursor one back; a rejection propagates and the cursor
        stays. */
    method PlayPrevious(playerResolves: bool) returns (rejected: bool)
      modifies this
      ensures queue == old(queue)
      ensures old(currentIndex) > 0 ==> requests == old(requests) + [Previous]
      ensures old(currentIndex) <= 0 ==> requests == old(requests)
      ensures rejected <==> old(currentIndex) > 0 && !playerResolves
      ensures currentIndex == if old(currentIndex) > 0 && playerResolves then old(currentIndex) - 1 else old(currentIndex)
      ensures old(IndexInRange()) ==> IndexInRange()
    {
      rejected := false;
      if currentIndex > 0 {
        requests := requests + [Previous];
        if !playerResolves {
          rejected := true;
          return;
        }
        currentIndex := currentIndex - 1;
      }
    }

    /** addToQueue(track): append at the end; the cursor does not move and
        the player is not called. */
    method AddToQueue(track: Track)
      modifies this
      ensures queue == old(queue) + [track]
      ensures currentIndex == old(currentIndex) && requests == old(requests)
      ensures old(IndexInRange()) ==> IndexInRange()
    {
      queue := queue + [track];
    }

    /** clearQueue(): an empty queue with the cursor at 0. */
    method ClearQueue()
      modifies this
      ensures queue == [] && currentIndex == 0 && requests == old(requests)
      ensures IndexInRange()
    {
      queue := [];
      currentIndex := 0;
    }
  }

  /** A caller's view: after playing a list from its first track, stepping
      forward reaches the second track, stepping back returns to the first,
      and a further step back calls nothing. An out-of-range start index is
      accepted and leaves the cursor outside the queue. */
  method QueueWalkthrough(a: Track, b: Track)
  {
    var p := new PlaybackQueue();
    p.PlayTrackList([a, b], true);
    assert p.currentIndex == 0 && p.queue[p.currentIndex] == a;
    var rejected := p.PlayNext(true);
    assert !rejected && p.queue[p.currentIndex] == b;
    rejected := p.PlayNext(true);
    assert p.currentIndex == 1;
    rejected := p.PlayPrevious(true);
    assert p.currentIndex == 0;
    ghost var before := p.requests;
    rejected := p.PlayPrevious(true);
    assert p.requests == before && p.currentIndex == 0;
    p.PlayTrackList([a], true, 3);
    assert !p.IndexInRange();
  }
}

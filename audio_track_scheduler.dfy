/**
 * The backend audio-layer queue (backend audio/player/TrackScheduler): a list
 * of tracks and a cursor, with no repeat flag and no jumps.
 */
module AudioTrackScheduler {
  import opened Wrappers
  import opened QueueView
  import opened BackendModel

  class TrackScheduler {
    var tracks: seq<Track>
    var currentIndex: int

    /** The cursor is -1 (nothing current) or a position inside the list. */
    ghost predicate Valid()
      reads this
    {
      -1 <= currentIndex < |tracks|
    }

    constructor()
      ensures Valid() && tracks == [] && currentIndex == -1
    {
      tracks := [];
      currentIndex := -1;
    }

    /** enqueue: append at the end; the cursor does not move. */
    method Enqueue(track: Track)
      requires Valid()
      modifies this
      ensures Valid() && tracks == old(tracks) + [track] && currentIndex == old(currentIndex)
    {
      tracks := tracks + [track];
    }

    /** addNext: insert at currentIndex+1; the new track heads the upcoming queue. */
    method AddNext(track: Track)
      requires Valid()
      modifies this
      ensures Valid() && currentIndex == old(currentIndex)
      ensures tracks == old(tracks)[..currentIndex + 1] + [track] + QueueOf(old(tracks), currentIndex)
      ensures QueueOf(tracks, currentIndex) == [track] + QueueOf(old(tracks), currentIndex)
    {
      QueueAfterPrefix(tracks[..currentIndex + 1], [track] + QueueOf(tracks, currentIndex), currentIndex);
      tracks := tracks[..currentIndex + 1] + [track] + QueueOf(tracks, currentIndex);
    }

    /** next: advance by one when a track follows; otherwise the cursor becomes |tracks|-1. */
    method Next() returns (r: Option<Track>)
      requires Valid()
      modifies this
      ensures Valid() && tracks == old(tracks)
      ensures old(currentIndex) + 1 < |tracks| ==>
        currentIndex == old(currentIndex) + 1 && r == Some(tracks[currentIndex])
      ensures old(currentIndex) + 1 >= |tracks| ==> currentIndex == |tracks| - 1 && r == None
    {
      if currentIndex + 1 < |tracks| {
        currentIndex := currentIndex + 1;
        return Some(tracks[currentIndex]);
      }
      currentIndex := |tracks| - 1;
      return None;
    }

    /** previous: step back only when the cursor is at least 1; otherwise nothing changes. */
    method Previous() returns (r: Option<Track>)
      requires Valid()
      modifies this
      ensures Valid() && tracks == old(tracks)
      ensures old(currentIndex) >= 1 ==>
        currentIndex == old(currentIndex) - 1 && r == Some(tracks[currentIndex])
      ensures old(currentIndex) < 1 ==> currentIndex == old(currentIndex) && r == None
    {
      if currentIndex - 1 >= 0 {
        currentIndex := currentIndex - 1;
        return Some(tracks[currentIndex]);
      }
      return None;
    }

    /** getCurrentTrack: present exactly when the cursor is inside the list. */
    method GetCurrentTrack() returns (r: Option<Track>)
      ensures r == CurrentOf(tracks, currentIndex)
      ensures r.Some? <==> 0 <= currentIndex < |tracks|
    {
      if currentIndex >= 0 && currentIndex < |tracks| {
        return Some(tracks[currentIndex]);
      }
      return None;
    }

    /** getQueue: exactly the tracks after the cursor. */
    method GetQueue() returns (r: seq<Track>)
      requires Valid()
      ensures r == QueueOf(tracks, currentIndex)
      ensures |r| == |tracks| - currentIndex - 1
      ensures forall k :: 0 <= k < |r| ==> r[k] == tracks[currentIndex + 1 + k]
    {
      if currentIndex + 1 >= |tracks| {
        return [];
      }
      return QueueOf(tracks, currentIndex);
    }

    /** clearQueue: truncate to the first currentIndex+1 tracks. */
    method ClearQueue()
      requires Valid()
      modifies this
      ensures Valid() && currentIndex == old(currentIndex)
      ensures tracks == old(tracks)[..currentIndex + 1]
      ensures QueueOf(tracks, currentIndex) == []
      ensures CurrentOf(tracks, currentIndex) == CurrentOf(old(tracks), currentIndex)
    {
      if currentIndex + 1 < |tracks| {
        tracks := tracks[..currentIndex + 1];
      }
    }

    /** clearAll: empty the list and reset the cursor. */
    method ClearAll()
      modifies this
      ensures Valid() && tracks == [] && currentIndex == -1
    {
      tracks := [];
      currentIndex := -1;
    }
  }
}

/**
 * The backend's first-generation LavalinkPlayer (audio/lavalink): a FIFO of
 * tracks, the track currently playing, and a state. Calls on the lavaplayer
 * player and its manager are recorded in `calls`, the paused flag in
 * `paused`; the load callbacks are separate methods.
 */
module LavalinkFifoPlayer {
  import opened Wrappers
  import opened Common
  import opened BackendModel
  import opened Lavaplayer

  class LavalinkPlayer {
    var queue: seq<Track>
    var currentlyPlaying: Option<Track>
    var state: PlayerState
    var paused: bool
    var calls: seq<Call>

    constructor()
      ensures queue == [] && currentlyPlaying == None && state == PlayerState.STOPPED
      ensures !paused && calls == []
    {
      queue := [];
      currentlyPlaying := None;
      state := PlayerState.STOPPED;
      paused := false;
      calls := [];
    }

    /**
     * What playNextInQueue does, from the state before the call to the state
     * after it: the head of the FIFO becomes the current track and is asked to
     * be loaded, the state kept; with an empty FIFO there is no current track
     * and the player is STOPPED. The paused flag never changes.
     */
    twostate predicate NextStarted()
      reads this
    {
      && paused == old(paused)
      && (old(queue) != [] ==>
            && currentlyPlaying.Some? && [currentlyPlaying.value] + queue == old(queue)
            && state == old(state) && calls == old(calls) + [LoadItem(currentlyPlaying.value.identifier)])
      && (old(queue) == [] ==>
            currentlyPlaying == None && state == PlayerState.STOPPED && queue == [] && calls == old(calls))
    }

    /** playNextInQueue: see NextStarted. */
    method PlayNextInQueue()
      modifies this
      ensures NextStarted()
    {
      if queue != [] {
        var next := queue[0];
        queue := queue[1..];
        currentlyPlaying := Some(next);
        calls := calls + [LoadItem(next.identifier)];
      } else {
        currentlyPlaying := None;
        state := PlayerState.STOPPED;
      }
    }

    /**
     * enqueue: append to the FIFO; only a STOPPED player moves to LOADING and
     * starts the head of the FIFO, every other state is kept.
     */
    method Enqueue(track: Track)
      modifies this
      ensures paused == old(paused)
      ensures old(state) == PlayerState.STOPPED ==>
        && state == LOADING && currentlyPlaying.Some?
        && [currentlyPlaying.value] + queue == old(queue) + [track]
        && calls == old(calls) + [LoadItem(currentlyPlaying.value.identifier)]
      ensures old(state) != PlayerState.STOPPED ==>
        && state == old(state) && queue == old(queue) + [track]
        && currentlyPlaying == old(currentlyPlaying) && calls == old(calls)
    {
      queue := queue + [track];
      if state == PlayerState.STOPPED {
        state := LOADING;
        PlayNextInQueue();
      }
    }

    /** pause: only PLAYING becomes PAUSED; every other state is left alone. */
    method Pause()
      modifies this
      ensures queue == old(queue) && currentlyPlaying == old(currentlyPlaying) && calls == old(calls)
      ensures old(state) == PLAYING ==> state == PlayerState.PAUSED && paused
      ensures old(state) != PLAYING ==> state == old(state) && paused == old(paused)
    {
      if state == PLAYING {
        state := PlayerState.PAUSED;
        paused := true;
      }
    }

    /** resume: only PAUSED becomes PLAYING; every other state is left alone. */
    method Resume()
      modifies this
      ensures queue == old(queue) && currentlyPlaying == old(currentlyPlaying) && calls == old(calls)
      ensures old(state) == PlayerState.PAUSED ==> state == PLAYING && !paused
      ensures old(state) != PlayerState.PAUSED ==> state == old(state) && paused == old(paused)
    {
      if state == PlayerState.PAUSED {
        state := PLAYING;
        paused := false;
      }
    }

    /** stop: STOPPED, an empty FIFO, no current track, and the lavaplayer track stopped. */
    method Stop()
      modifies this
      ensures state == PlayerState.STOPPED && queue == [] && currentlyPlaying == None
      ensures paused == old(paused) && calls == old(calls) + [StopTrack]
    {
      state := PlayerState.STOPPED;
      queue := [];
      calls := calls + [StopTrack];
      currentlyPlaying := None;
    }

    /** skip: stop the lavaplayer track and report the track that was current; queue and state are untouched. */
    method Skip() returns (r: Option<Track>)
      modifies this
      ensures r == old(currentlyPlaying)
      ensures queue == old(queue) && state == old(state) && currentlyPlaying == old(currentlyPlaying)
      ensures paused == old(paused) && calls == old(calls) + [StopTrack]
    {
      r := currentlyPlaying;
      calls := calls + [StopTrack];
    }

    /** getQueue: the waiting tracks in FIFO order; the current track is not among them. */
    method GetQueue() returns (r: seq<Track>)
      ensures r == queue
    {
      return queue;
    }

    /** getCurrentlyPlaying */
    method GetCurrentlyPlaying() returns (r: Option<Track>)
      ensures r == currentlyPlaying
    {
      return currentlyPlaying;
    }

    /** getState */
    method GetState() returns (r: PlayerState)
      ensures r == state
    {
      return state;
    }

    /** onTrackEnd: start the next track of the FIFO. */
    method OnTrackEnd()
      modifies this
      ensures NextStarted()
    {
      PlayNextInQueue();
    }

    /** trackLoaded callback: PLAYING, and the loaded track handed to lavaplayer. */
    method TrackLoaded(track: AudioTrack)
      modifies this
      ensures state == PLAYING && calls == old(calls) + [Call.PlayTrack(track)]
      ensures queue == old(queue) && currentlyPlaying == old(currentlyPlaying) && paused == old(paused)
    {
      state := PLAYING;
      calls := calls + [Call.PlayTrack(track)];
    }

    /** playlistLoaded callback: the first track as in trackLoaded; an empty playlist throws and nothing changes. */
    method PlaylistLoaded(playlist: AudioPlaylist)
      modifies this
      ensures queue == old(queue) && currentlyPlaying == old(currentlyPlaying) && paused == old(paused)
      ensures playlist.tracks == [] ==> state == old(state) && calls == old(calls)
      ensures playlist.tracks != [] ==> state == PLAYING && calls == old(calls) + [Call.PlayTrack(playlist.tracks[0])]
    {
      if playlist.tracks == [] {
        return;
      }
      TrackLoaded(playlist.tracks[0]);
    }

    /** noMatches callback: move on to the next queued track. */
    method NoMatches()
      modifies this
      ensures NextStarted()
    {
      OnTrackEnd();
    }

    /** loadFailed callback: move on to the next queued track. */
    method LoadFailed()
      modifies this
      ensures NextStarted()
    {
      OnTrackEnd();
    }
  }
}

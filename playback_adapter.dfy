/**
 * The backend's LavalinkPlaybackAdapter and the forwarding event handler
 * (infrastructure/lavalink/event). The adapter drives a domain TrackScheduler
 * and a lavaplayer AudioPlayer, reduced here to the calls made on it
 * (`calls`) and its paused flag (`paused`); every PlayerStateChanged event it
 * publishes is counted in `changesFired`. The load callbacks are separate
 * methods that receive the resumeAfterLoad flag their load was started with.
 *
 * The adapter hands the domain scheduler bare tracks and reads them back with
 * getCurrentTrack; the scheduler keeps QueueItems, so each track is wrapped in
 * a QueueItem here and getCurrentlyPlaying reads the current item's track.
 */
module LavalinkPlayback {
  import opened Wrappers
  import opened Common
  import opened BackendModel
  import opened QueueView
  import opened Lavaplayer
  import Domain = DomainTrackScheduler

  class LavalinkPlaybackAdapter {
    const scheduler: Domain.TrackScheduler
    var state: PlayerState
    var paused: bool
    var calls: seq<Call>
    var changesFired: nat

    ghost predicate Valid()
      reads this, scheduler
    {
      scheduler.Valid()
    }

    ghost function Cursor(): int
      reads this, scheduler
    {
      scheduler.currentIndex
    }

    ghost function Items(): seq<QueueItem>
      reads this, scheduler
    {
      scheduler.items
    }

    /** A new adapter: STOPPED, with an empty scheduler. */
    constructor()
      ensures Valid() && fresh(scheduler)
      ensures state == PlayerState.STOPPED && !paused && calls == [] && changesFired == 0
      ensures scheduler.items == [] && scheduler.currentIndex == -1
    {
      scheduler := new Domain.TrackScheduler();
      state := PlayerState.STOPPED;
      paused := false;
      calls := [];
      changesFired := 0;
    }

    /** fireChange: publish one PlayerStateChanged event. */
    method FireChange()
      modifies this
      ensures changesFired == old(changesFired) + 1
      ensures state == old(state) && paused == old(paused) && calls == old(calls)
    {
      changesFired := changesFired + 1;
    }

    /** changeState: compare-and-set from one state to another; the paused flag follows only on success. */
    method ChangeState(from: PlayerState, to: PlayerState, pause: bool)
      modifies this
      ensures old(state) == from ==> state == to && paused == pause
      ensures old(state) != from ==> state == old(state) && paused == old(paused)
      ensures calls == old(calls) && changesFired == old(changesFired)
    {
      if state == from {
        state := to;
        paused := pause;
      }
    }

    /** playTrack: enter LOADING and ask the manager to load the identifier. */
    method PlayTrack(track: Track, resumeAfterLoad: bool)
      modifies this
      ensures state == LOADING && paused == old(paused) && changesFired == old(changesFired)
      ensures calls == old(calls) + [LoadItem(track.identifier)]
    {
      state := LOADING;
      calls := calls + [LoadItem(track.identifier)];
    }

    /**
     * What skip does, from the state before the call to the state after it:
     * with no next item nothing changes. Otherwise a PAUSED player is first
     * unpaused, the current track is stopped, the cursor advances by one, the
     * new current track is loaded, the state ends as LOADING whatever it was,
     * and one change is fired. The list and the repeat flag never change.
     */
    twostate predicate Skipped()
      requires old(Valid())
      reads this, scheduler
    {
      && Valid() && Items() == old(Items()) && scheduler.repeatEnabled == old(scheduler.repeatEnabled)
      && (old(Cursor()) + 1 >= |Items()| ==>
            state == old(state) && paused == old(paused) && Cursor() == old(Cursor())
            && calls == old(calls) && changesFired == old(changesFired))
      && (old(Cursor()) + 1 < |Items()| ==>
            state == LOADING && Cursor() == old(Cursor()) + 1
            && paused == (if old(state) == PlayerState.PAUSED then false else old(paused))
            && calls == old(calls) + [StopTrack, LoadItem(Items()[Cursor()].track.identifier)]
            && changesFired == old(changesFired) + 1)
    }

    /** skip: SKIPPED when a next item exists, else NO_NEXT_TRACK; see Skipped. */
    method Skip() returns (o: PlayerOutcome)
      requires Valid()
      modifies this, scheduler
      ensures Skipped()
      ensures o == (if old(Cursor()) + 1 < |Items()| then SKIPPED else NO_NEXT_TRACK)
    {
      var wasPaused := state == PlayerState.PAUSED;
      var next := scheduler.PeekNext();
      if next.None? {
        return NO_NEXT_TRACK;
      }
      if wasPaused {
        paused := false;
        ChangeState(PlayerState.PAUSED, PLAYING, false);
      }
      ghost var before := calls;
      calls := calls + [StopTrack];
      state := LOADING;
      var _ := scheduler.Next();
      assert Items()[Cursor()] == next.value;
      PlayTrack(next.value.track, true);
      assert calls == before + [StopTrack, LoadItem(next.value.track.identifier)];
      FireChange();
      return SKIPPED;
    }

    /** previous: the mirror image of skip, one step back into the history. */
    method Previous() returns (o: PlayerOutcome)
      requires Valid()
      modifies this, scheduler
      ensures Valid() && Items() == old(Items()) && scheduler.repeatEnabled == old(scheduler.repeatEnabled)
      ensures old(Cursor()) < 1 ==>
        && o == NO_PREVIOUS_TRACK && state == old(state) && paused == old(paused) && Cursor() == old(Cursor())
        && calls == old(calls) && changesFired == old(changesFired)
      ensures old(Cursor()) >= 1 ==>
        && o == PLAYING_PREVIOUS && state == LOADING && Cursor() == old(Cursor()) - 1
        && paused == (if old(state) == PlayerState.PAUSED then false else old(paused))
        && calls == old(calls) + [StopTrack, LoadItem(Items()[Cursor()].track.identifier)]
        && changesFired == old(changesFired) + 1
    {
      var wasPaused := state == PlayerState.PAUSED;
      var prev := scheduler.PeekPrevious();
      if prev.None? {
        return NO_PREVIOUS_TRACK;
      }
      if wasPaused {
        paused := false;
        ChangeState(PlayerState.PAUSED, PLAYING, false);
      }
      calls := calls + [StopTrack];
      state := LOADING;
      var _ := scheduler.Previous();
      PlayTrack(prev.value.track, true);
      FireChange();
      return PLAYING_PREVIOUS;
    }

    /**
     * play: the track is always appended and a change fired; only a STOPPED
     * or LOADING player then skips (and always finds a next track, since one
     * was just appended); PLAYING and PAUSED players report ADDED_TO_QUEUE.
     */
    method Play(track: Track) returns (o: PlayerOutcome)
      requires Valid()
      modifies this, scheduler
      ensures Valid() && Items() == old(Items()) + [QueueItem(track)]
      ensures old(state) == PlayerState.STOPPED || old(state) == LOADING ==>
        && o == SKIPPED && state == LOADING && Cursor() == old(Cursor()) + 1 && paused == old(paused)
        && calls == old(calls) + [StopTrack, LoadItem(Items()[Cursor()].track.identifier)]
        && changesFired == old(changesFired) + 2
      ensures old(state) == PLAYING || old(state) == PlayerState.PAUSED ==>
        && o == ADDED_TO_QUEUE && state == old(state) && paused == old(paused) && Cursor() == old(Cursor())
        && calls == old(calls) && changesFired == old(changesFired) + 1
    {
      scheduler.Enqueue(QueueItem(track));
      FireChange();
      if state == PlayerState.STOPPED || state == LOADING {
        o := Skip();
        return;
      }
      return ADDED_TO_QUEUE;
    }

    /** playNow: insert the track right after the current one, fire a change and skip onto it. */
    method PlayNow(track: Track) returns (o: PlayerOutcome)
      requires Valid()
      modifies this, scheduler
      ensures Valid() && Items() == old(Items())[..old(Cursor()) + 1] + [QueueItem(track)] + QueueOf(old(Items()), old(Cursor()))
      ensures o == SKIPPED && state == LOADING && Cursor() == old(Cursor()) + 1 && Items()[Cursor()].track == track
      ensures paused == (if old(state) == PlayerState.PAUSED then false else old(paused))
      ensures calls == old(calls) + [StopTrack, LoadItem(track.identifier)]
      ensures changesFired == old(changesFired) + 2
    {
      scheduler.AddNext(QueueItem(track));
      FireChange();
      o := Skip();
    }

    /**
     * pause: ALREADY_PAUSED when PAUSED. Otherwise PAUSED is returned, but
     * only a PLAYING player actually becomes PAUSED; a STOPPED or LOADING
     * player keeps its state.
     */
    method Pause() returns (o: PlayerOutcome)
      modifies this
      ensures calls == old(calls)
      ensures old(state) == PlayerState.PAUSED ==>
        o == ALREADY_PAUSED && state == old(state) && paused == old(paused) && changesFired == old(changesFired)
      ensures old(state) == PLAYING ==>
        o == PlayerOutcome.PAUSED && state == PlayerState.PAUSED && paused && changesFired == old(changesFired) + 1
      ensures old(state) == PlayerState.STOPPED || old(state) == LOADING ==>
        o == PlayerOutcome.PAUSED && state == old(state) && paused == old(paused) && changesFired == old(changesFired) + 1
    {
      if state == PlayerState.PAUSED {
        return ALREADY_PAUSED;
      }
      ChangeState(PLAYING, PlayerState.PAUSED, true);
      FireChange();
      return PlayerOutcome.PAUSED;
    }

    /**
     * resume: ALREADY_PLAYING when PLAYING. Otherwise RESUMED is returned, but
     * only a PAUSED player actually becomes PLAYING.
     */
    method Resume() returns (o: PlayerOutcome)
      modifies this
      ensures calls == old(calls)
      ensures old(state) == PLAYING ==>
        o == ALREADY_PLAYING && state == PLAYING && paused == old(paused) && changesFired == old(changesFired)
      ensures old(state) == PlayerState.PAUSED ==>
        o == RESUMED && state == PLAYING && !paused && changesFired == old(changesFired) + 1
      ensures old(state) == PlayerState.STOPPED || old(state) == LOADING ==>
        o == RESUMED && state == old(state) && paused == old(paused) && changesFired == old(changesFired) + 1
    {
      if state == PLAYING {
        return ALREADY_PLAYING;
      }
      ChangeState(PlayerState.PAUSED, PLAYING, false);
      FireChange();
      return RESUMED;
    }

    /** stop: ALREADY_STOPPED when STOPPED; otherwise empty the scheduler, stop the track and become STOPPED. */
    method Stop() returns (o: PlayerOutcome)
      requires Valid()
      modifies this, scheduler
      ensures Valid() && state == PlayerState.STOPPED && paused == old(paused)
      ensures old(state) == PlayerState.STOPPED ==>
        o == ALREADY_STOPPED && Items() == old(Items()) && Cursor() == old(Cursor())
        && calls == old(calls) && changesFired == old(changesFired)
      ensures old(state) != PlayerState.STOPPED ==>
        o == PlayerOutcome.STOPPED && Items() == [] && Cursor() == -1
        && calls == old(calls) + [StopTrack] && changesFired == old(changesFired) + 1
    {
      if state == PlayerState.STOPPED {
        return ALREADY_STOPPED;
      }
      scheduler.ClearAll();
      OnQueueEnd();
      FireChange();
      return PlayerOutcome.STOPPED;
    }

    /** onQueueEnd: become STOPPED and stop the lavaplayer track. */
    method OnQueueEnd()
      modifies this
      ensures state == PlayerState.STOPPED && paused == old(paused)
      ensures calls == old(calls) + [StopTrack] && changesFired == old(changesFired)
    {
      state := PlayerState.STOPPED;
      calls := calls + [StopTrack];
    }

    /** clearQueue: drop the upcoming items only. */
    method ClearQueue()
      requires Valid()
      modifies scheduler
      ensures Valid() && Cursor() == old(Cursor()) && Items() == old(Items())[..Cursor() + 1]
    {
      scheduler.ClearQueue();
    }

    /** getQueue: the upcoming tracks. */
    method GetQueue() returns (r: seq<QueueItem>)
      requires Valid()
      ensures r == QueueOf(Items(), Cursor())
    {
      r := scheduler.GetQueue();
    }

    /** getCurrentlyPlaying: the current item's track, if any. */
    method GetCurrentlyPlaying() returns (r: Option<Track>)
      ensures r.Some? <==> CurrentOf(Items(), Cursor()).Some?
      ensures r.Some? ==> r.value == CurrentOf(Items(), Cursor()).value.track
    {
      var item := scheduler.GetCurrentItem();
      if item.Some? {
        return Some(item.value.track);
      }
      return None;
    }

    /** getState */
    method GetState() returns (r: PlayerState)
      ensures r == state
    {
      return state;
    }

    /** onTrackEnd: exactly skip. */
    method OnTrackEnd() returns (o: PlayerOutcome)
      requires Valid()
      modifies this, scheduler
      ensures Skipped()
      ensures o == (if old(Cursor()) + 1 < |Items()| then SKIPPED else NO_NEXT_TRACK)
    {
      o := Skip();
    }

    /** trackLoaded callback: play the loaded track, then PLAYING when resuming, else PAUSED; fire a change. */
    method TrackLoaded(loaded: AudioTrack, resumeAfterLoad: bool)
      modifies this
      ensures calls == old(calls) + [Call.PlayTrack(loaded)]
      ensures state == (if resumeAfterLoad then PLAYING else PlayerState.PAUSED)
      ensures paused == !resumeAfterLoad && changesFired == old(changesFired) + 1
    {
      calls := calls + [Call.PlayTrack(loaded)];
      if resumeAfterLoad {
        paused := false;
        state := PLAYING;
      } else {
        paused := true;
        state := PlayerState.PAUSED;
      }
      FireChange();
    }

    /** playlistLoaded callback: start the first track as PLAYING; an empty playlist throws and nothing changes. */
    method PlaylistLoaded(pl: AudioPlaylist)
      modifies this
      ensures paused == old(paused)
      ensures pl.tracks == [] ==> state == old(state) && calls == old(calls) && changesFired == old(changesFired)
      ensures pl.tracks != [] ==>
        state == PLAYING && calls == old(calls) + [Call.PlayTrack(pl.tracks[0])] && changesFired == old(changesFired) + 1
    {
      if pl.tracks == [] {
        return;
      }
      state := PLAYING;
      calls := calls + [Call.PlayTrack(pl.tracks[0])];
      FireChange();
    }

    /** noMatches callback: onTrackEnd, that is, skip past the unloadable track. */
    method NoMatches()
      requires Valid()
      modifies this, scheduler
      ensures Skipped()
    {
      var _ := OnTrackEnd();
    }

    /** loadFailed callback: onTrackEnd, that is, skip past the failed track. */
    method LoadFailed()
      requires Valid()
      modifies this, scheduler
      ensures Skipped()
    {
      var _ := OnTrackEnd();
    }
  }

  /** The lavaplayer listener that forwards end, exception and stuck events to the adapter; it holds only the adapter. */
  class LavalinkEventHandler {
    const ourPlayerAdapter: LavalinkPlaybackAdapter

    constructor(ourPlayerAdapter: LavalinkPlaybackAdapter)
      ensures this.ourPlayerAdapter == ourPlayerAdapter
    {
      this.ourPlayerAdapter := ourPlayerAdapter;
    }

    /** onTrackEnd: forwarded iff the end reason permits starting the next track. */
    method OnTrackEnd(track: AudioTrack, endReason: EndReason)
      requires ourPlayerAdapter.Valid()
      modifies ourPlayerAdapter, ourPlayerAdapter.scheduler
      ensures ourPlayerAdapter.Valid() && ourPlayerAdapter.Items() == old(ourPlayerAdapter.Items())
      ensures !endReason.MayStartNext() ==>
        ourPlayerAdapter.state == old(ourPlayerAdapter.state) && ourPlayerAdapter.Cursor() == old(ourPlayerAdapter.Cursor())
        && ourPlayerAdapter.paused == old(ourPlayerAdapter.paused)
        && ourPlayerAdapter.calls == old(ourPlayerAdapter.calls)
        && ourPlayerAdapter.changesFired == old(ourPlayerAdapter.changesFired)
      ensures endReason.MayStartNext() ==> ourPlayerAdapter.Skipped()
    {
      if endReason.MayStartNext() {
        var _ := ourPlayerAdapter.OnTrackEnd();
      }
    }

    /** onTrackException: always forwarded. */
    method OnTrackException(track: AudioTrack)
      requires ourPlayerAdapter.Valid()
      modifies ourPlayerAdapter, ourPlayerAdapter.scheduler
      ensures ourPlayerAdapter.Skipped()
    {
      var _ := ourPlayerAdapter.OnTrackEnd();
    }

    /** onTrackStuck: always forwarded. */
    method OnTrackStuck(track: AudioTrack, thresholdMs: int)
      requires ourPlayerAdapter.Valid()
      modifies ourPlayerAdapter, ourPlayerAdapter.scheduler
      ensures ourPlayerAdapter.Skipped()
    {
      var _ := ourPlayerAdapter.OnTrackEnd();
    }
  }
}

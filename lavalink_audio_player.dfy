/**
 * The backend's LavaLinkAudioPlayer and the lavaplayer event handler
 * attached to it (infrastructure/lavalink). The player drives a domain
 * TrackScheduler and a lavaplayer AudioPlayer; the latter is reduced to the
 * calls made on it (`calls`) and its paused flag (`paused`). Outcomes sent
 * to the listener are recorded in `notices`. Loading is asynchronous: the
 * four load callbacks are separate methods.
 */
module LavalinkAudio {
  import opened Wrappers
  import opened Common
  import opened BackendModel
  import opened QueueView
  import opened Lavaplayer
  import Domain = DomainTrackScheduler

  class LavaLinkAudioPlayer {
    const scheduler: Domain.TrackScheduler
    const hasListener: bool
    var state: PlayerState
    var paused: bool
    var calls: seq<Call>
    var notices: seq<Notice>

    ghost predicate Valid()
      reads this, scheduler
    {
      scheduler.Valid()
    }

    /** The notices a notify(outcome) adds in state s: one when a listener is attached, none otherwise. */
    function NoticeOf(s: PlayerState, o: PlayerOutcome): (r: seq<Notice>)
      ensures |r| <= 1 && (r != [] <==> hasListener)
    {
      if hasListener then [Notice(s, o)] else []
    }

    ghost function Cursor(): int
      reads this, scheduler
    {
      scheduler.currentIndex
    }

    ghost function Items(): seq<QueueItem>
      reads this, scheduler
    {
      scheduler.items
    }

    /** A new player: STOPPED, with an empty scheduler. */
    constructor(hasListener: bool)
      ensures Valid() && fresh(scheduler) && this.hasListener == hasListener
      ensures state == PlayerState.STOPPED && !paused && calls == [] && notices == []
      ensures scheduler.items == [] && scheduler.currentIndex == -1 && !scheduler.repeatEnabled
    {
      this.hasListener := hasListener;
      scheduler := new Domain.TrackScheduler();
      state := PlayerState.STOPPED;
      paused := false;
      calls := [];
      notices := [];
    }

    /** gotoState: set the state and the paused flag, then notify a non-null outcome. */
    method GotoState(newState: PlayerState, outcome: Option<PlayerOutcome>, pause: bool)
      modifies this
      ensures state == newState && paused == pause && calls == old(calls)
      ensures notices == old(notices) + (if outcome.Some? then NoticeOf(newState, outcome.value) else [])
    {
      state := newState;
      paused := pause;
      Notify(outcome);
    }

    /** notify: only a non-null outcome reaches the listener. */
    method Notify(outcome: Option<PlayerOutcome>)
      modifies this
      ensures state == old(state) && paused == old(paused) && calls == old(calls)
      ensures notices == old(notices) + (if outcome.Some? then NoticeOf(state, outcome.value) else [])
    {
      if hasListener && outcome.Some? {
        notices := notices + [Notice(state, outcome.value)];
      }
    }

    /** playTrack: enter LOADING (unpaused, no outcome) and ask the manager to load the identifier. */
    method PlayTrack(track: Track)
      modifies this
      ensures state == LOADING && !paused && notices == old(notices)
      ensures calls == old(calls) + [LoadItem(track.identifier)]
    {
      GotoState(LOADING, None, false);
      calls := calls + [LoadItem(track.identifier)];
    }

    /**
     * playNextInQueue: with a next item, stop the current track, enter
     * LOADING with SKIPPED and load the item; at the end of the list, the
     * queue-end handling stops the player with NO_NEXT_TRACK.
     */
    method PlayNextInQueue() returns (o: PlayerOutcome)
      requires Valid()
      modifies this, scheduler
      ensures Valid() && Items() == old(Items()) && scheduler.repeatEnabled == old(scheduler.repeatEnabled)
      ensures !paused
      ensures old(Cursor()) + 1 < |Items()| ==>
        && Cursor() == old(Cursor()) + 1 && state == LOADING && o == SKIPPED
        && calls == old(calls) + [StopTrack, LoadItem(Items()[Cursor()].track.identifier)]
        && notices == old(notices) + NoticeOf(LOADING, SKIPPED)
      ensures old(Cursor()) + 1 >= |Items()| ==>
        && Cursor() == old(Cursor()) && state == PlayerState.STOPPED && o == NO_NEXT_TRACK
        && calls == old(calls) + [StopTrack]
        && notices == old(notices) + NoticeOf(PlayerState.STOPPED, NO_NEXT_TRACK)
    {
      var nextTrack := scheduler.Next();
      if nextTrack.Some? {
        calls := calls + [StopTrack];
        GotoState(LOADING, Some(SKIPPED), false);
        PlayTrack(nextTrack.value.track);
        return SKIPPED;
      }
      OnQueueEnd();
      return NO_NEXT_TRACK;
    }

    /** onQueueEnd: stop the lavaplayer track and become STOPPED with NO_NEXT_TRACK. */
    method OnQueueEnd()
      modifies this
      ensures state == PlayerState.STOPPED && !paused
      ensures calls == old(calls) + [StopTrack]
      ensures notices == old(notices) + NoticeOf(PlayerState.STOPPED, NO_NEXT_TRACK)
    {
      calls := calls + [StopTrack];
      GotoState(PlayerState.STOPPED, Some(NO_NEXT_TRACK), false);
    }

    /**
     * play: when STOPPED or PAUSED the item is played at once (playNow);
     * otherwise it is appended and ADDED_TO_QUEUE is reported with the state
     * unchanged.
     */
    method Play(item: QueueItem) returns (o: PlayerOutcome)
      requires Valid()
      modifies this, scheduler
      ensures Valid() && scheduler.repeatEnabled == old(scheduler.repeatEnabled)
      ensures old(state) == PlayerState.STOPPED || old(state) == PlayerState.PAUSED ==>
        && o == SKIPPED && state == LOADING && !paused
        && Cursor() == old(Cursor()) + 1 && Items()[Cursor()] == item
        && Items() == old(Items())[..old(Cursor()) + 1] + [item] + QueueOf(old(Items()), old(Cursor()))
        && calls == old(calls) + [StopTrack, LoadItem(item.track.identifier)]
        && notices == old(notices) + NoticeOf(LOADING, SKIPPED)
      ensures !(old(state) == PlayerState.STOPPED || old(state) == PlayerState.PAUSED) ==>
        && o == ADDED_TO_QUEUE && state == old(state) && !paused
        && Items() == old(Items()) + [item] && Cursor() == old(Cursor())
        && calls == old(calls) && notices == old(notices) + NoticeOf(state, ADDED_TO_QUEUE)
    {
      if state == PlayerState.STOPPED || state == PlayerState.PAUSED {
        o := PlayNow(item);
        return;
      }
      scheduler.Enqueue(item);
      GotoState(state, Some(ADDED_TO_QUEUE), false);
      return ADDED_TO_QUEUE;
    }

    /** playNow: insert the item right after the current one and skip onto it; this always succeeds. */
    method PlayNow(item: QueueItem) returns (o: PlayerOutcome)
      requires Valid()
      modifies this, scheduler
      ensures Valid() && scheduler.repeatEnabled == old(scheduler.repeatEnabled)
      ensures o == SKIPPED && state == LOADING && !paused
      ensures Cursor() == old(Cursor()) + 1 && Items()[Cursor()] == item
      ensures Items() == old(Items())[..old(Cursor()) + 1] + [item] + QueueOf(old(Items()), old(Cursor()))
      ensures calls == old(calls) + [StopTrack, LoadItem(item.track.identifier)]
      ensures notices == old(notices) + NoticeOf(LOADING, SKIPPED)
    {
      scheduler.AddNext(item);
      o := Skip();
    }

    /** repeat: report REPEATED in the current state, unpaused. */
    method Repeat() returns (o: PlayerOutcome)
      modifies this
      ensures o == REPEATED && state == old(state) && !paused && calls == old(calls)
      ensures notices == old(notices) + NoticeOf(state, REPEATED)
    {
      GotoState(state, Some(REPEATED), false);
      return REPEATED;
    }

    /** toggleRepeat: flip the scheduler's flag and report the new mode, keeping the paused look. */
    method ToggleRepeat() returns (o: PlayerOutcome)
      requires Valid()
      modifies this, scheduler
      ensures Valid() && Items() == old(Items()) && Cursor() == old(Cursor())
      ensures scheduler.repeatEnabled == !old(scheduler.repeatEnabled)
      ensures o == (if scheduler.repeatEnabled then REPEAT_ENABLED else REPEAT_DISABLED)
      ensures state == old(state) && paused == (state == PlayerState.PAUSED) && calls == old(calls)
      ensures notices == old(notices) + NoticeOf(state, o)
    {
      var repeatEnabled := scheduler.ToggleRepeat();
      var isCurrentlyPaused := state == PlayerState.PAUSED;
      if repeatEnabled {
        GotoState(state, Some(REPEAT_ENABLED), isCurrentlyPaused);
        return REPEAT_ENABLED;
      }
      GotoState(state, Some(REPEAT_DISABLED), isCurrentlyPaused);
      return REPEAT_DISABLED;
    }

    /**
     * skip: with no next item, NO_NEXT_TRACK is reported and the state and
     * cursor stay; otherwise the cursor advances by one and the state becomes
     * LOADING.
     */
    method Skip() returns (o: PlayerOutcome)
      requires Valid()
      modifies this, scheduler
      ensures Valid() && Items() == old(Items()) && scheduler.repeatEnabled == old(scheduler.repeatEnabled)
      ensures old(Cursor()) + 1 >= |Items()| ==>
        && o == NO_NEXT_TRACK && state == old(state) && Cursor() == old(Cursor())
        && paused == (state != PLAYING) && calls == old(calls)
        && notices == old(notices) + NoticeOf(state, NO_NEXT_TRACK)
      ensures old(Cursor()) + 1 < |Items()| ==>
        && o == SKIPPED && state == LOADING && !paused && Cursor() == old(Cursor()) + 1
        && calls == old(calls) + [StopTrack, LoadItem(Items()[Cursor()].track.identifier)]
        && notices == old(notices) + NoticeOf(LOADING, SKIPPED)
    {
      var next := scheduler.PeekNext();
      if next.None? {
        GotoState(state, Some(NO_NEXT_TRACK), state != PLAYING);
        return NO_NEXT_TRACK;
      }
      o := PlayNextInQueue();
    }

    /**
     * previous: without history NO_PREVIOUS_TRACK is reported and nothing
     * moves; otherwise the cursor steps back, the state becomes LOADING and
     * the previous item is loaded.
     */
    method Previous() returns (o: PlayerOutcome)
      requires Valid()
      modifies this, scheduler
      ensures Valid() && Items() == old(Items()) && scheduler.repeatEnabled == old(scheduler.repeatEnabled)
      ensures old(Cursor()) < 1 ==>
        && o == NO_PREVIOUS_TRACK && state == old(state) && Cursor() == old(Cursor())
        && paused == (state != PLAYING) && calls == old(calls)
        && notices == old(notices) + NoticeOf(state, NO_PREVIOUS_TRACK)
      ensures old(Cursor()) >= 1 ==>
        && o == PLAYING_PREVIOUS && state == LOADING && !paused && Cursor() == old(Cursor()) - 1
        && calls == old(calls) + [StopTrack, LoadItem(Items()[Cursor()].track.identifier)]
        && notices == old(notices) + NoticeOf(LOADING, PLAYING_PREVIOUS)
    {
      var prev := scheduler.PeekPrevious();
      if prev.None? {
        GotoState(state, Some(NO_PREVIOUS_TRACK), state != PLAYING);
        return NO_PREVIOUS_TRACK;
      }
      calls := calls + [StopTrack];
      GotoState(LOADING, Some(PLAYING_PREVIOUS), false);
      var _ := scheduler.Previous();
      PlayTrack(prev.value.track);
      return PLAYING_PREVIOUS;
    }

    /** pause: ALREADY_PAUSED when PAUSED; any other state becomes PAUSED. The lavaplayer is paused either way. */
    method Pause() returns (o: PlayerOutcome)
      modifies this
      ensures state == PlayerState.PAUSED && paused && calls == old(calls)
      ensures o == (if old(state) == PlayerState.PAUSED then ALREADY_PAUSED else PlayerOutcome.PAUSED)
      ensures notices == old(notices) + NoticeOf(PlayerState.PAUSED, o)
    {
      if state == PlayerState.PAUSED {
        GotoState(state, Some(ALREADY_PAUSED), true);
        return ALREADY_PAUSED;
      }
      GotoState(PlayerState.PAUSED, Some(PlayerOutcome.PAUSED), true);
      return PlayerOutcome.PAUSED;
    }

    /**
     * resume: ALREADY_PLAYING when PLAYING; from STOPPED the current item is
     * reloaded (LOADING, RESUMED, no notice) or QUEUE_EMPTY is reported when
     * there is none; any other state becomes PLAYING with RESUMED.
     */
    method Resume() returns (o: PlayerOutcome)
      requires Valid()
      modifies this
      ensures !paused
      ensures old(state) == PLAYING ==>
        o == ALREADY_PLAYING && state == PLAYING && calls == old(calls)
        && notices == old(notices) + NoticeOf(PLAYING, ALREADY_PLAYING)
      ensures old(state) == PlayerState.STOPPED && CurrentOf(Items(), Cursor()).Some? ==>
        o == RESUMED && state == LOADING && notices == old(notices)
        && calls == old(calls) + [LoadItem(Items()[Cursor()].track.identifier)]
      ensures old(state) == PlayerState.STOPPED && CurrentOf(Items(), Cursor()).None? ==>
        o == QUEUE_EMPTY && state == PlayerState.STOPPED && calls == old(calls)
        && notices == old(notices) + NoticeOf(PlayerState.STOPPED, QUEUE_EMPTY)
      ensures old(state) == PlayerState.PAUSED || old(state) == LOADING ==>
        o == RESUMED && state == PLAYING && calls == old(calls)
        && notices == old(notices) + NoticeOf(PLAYING, RESUMED)
    {
      if state == PLAYING {
        GotoState(state, Some(ALREADY_PLAYING), false);
        return ALREADY_PLAYING;
      }
      if state == PlayerState.STOPPED {
        var lastTrack := scheduler.GetCurrentItem();
        if lastTrack.Some? {
          PlayTrack(lastTrack.value.track);
          return RESUMED;
        }
        GotoState(state, Some(QUEUE_EMPTY), false);
        return QUEUE_EMPTY;
      }
      GotoState(PLAYING, Some(RESUMED), false);
      return RESUMED;
    }

    /** stop: ALREADY_STOPPED when STOPPED; otherwise empty the scheduler, stop the track and become STOPPED. */
    method Stop() returns (o: PlayerOutcome)
      requires Valid()
      modifies this, scheduler
      ensures Valid() && state == PlayerState.STOPPED && !paused
      ensures scheduler.repeatEnabled == old(scheduler.repeatEnabled)
      ensures old(state) == PlayerState.STOPPED ==>
        o == ALREADY_STOPPED && Items() == old(Items()) && Cursor() == old(Cursor()) && calls == old(calls)
        && notices == old(notices) + NoticeOf(PlayerState.STOPPED, ALREADY_STOPPED)
      ensures old(state) != PlayerState.STOPPED ==>
        o == PlayerOutcome.STOPPED && Items() == [] && Cursor() == -1 && calls == old(calls) + [StopTrack]
        && notices == old(notices) + NoticeOf(PlayerState.STOPPED, PlayerOutcome.STOPPED)
    {
      if state == PlayerState.STOPPED {
        GotoState(state, Some(ALREADY_STOPPED), false);
        return ALREADY_STOPPED;
      }
      scheduler.ClearAll();
      calls := calls + [StopTrack];
      GotoState(PlayerState.STOPPED, Some(PlayerOutcome.STOPPED), false);
      return PlayerOutcome.STOPPED;
    }

    /**
     * jumpToTrack: an unknown identifier reports ERROR and changes nothing;
     * otherwise the cursor is put just before the first matching item and
     * playNextInQueue moves onto it.
     */
    method JumpToTrack(trackIdentifier: string) returns (o: PlayerOutcome)
      requires Valid()
      modifies this, scheduler
      ensures Valid() && Items() == old(Items()) && scheduler.repeatEnabled == old(scheduler.repeatEnabled)
      ensures Domain.FindIndex(Items(), trackIdentifier) == -1 ==>
        o == ERROR && state == old(state) && paused == old(paused) && Cursor() == old(Cursor())
        && calls == old(calls) && notices == old(notices) + NoticeOf(state, ERROR)
      ensures Domain.FindIndex(Items(), trackIdentifier) >= 0 ==>
        o == SKIPPED && state == LOADING && !paused
        && Cursor() == Domain.FindIndex(Items(), trackIdentifier)
        && Items()[Cursor()].track.identifier == trackIdentifier
        && calls == old(calls) + [StopTrack, LoadItem(trackIdentifier)]
        && notices == old(notices) + NoticeOf(LOADING, SKIPPED)
    {
      var trackIndex := scheduler.FindTrackIndex(trackIdentifier);
      if trackIndex == -1 {
        Notify(Some(ERROR));
        return ERROR;
      }
      scheduler.SetCurrentIndex(trackIndex - 1);
      o := PlayNextInQueue();
    }

    /** shuffle: permute the upcoming items and report SHUFFLED, keeping the paused look. */
    method Shuffle(draws: seq<nat>) returns (o: PlayerOutcome)
      requires Valid()
      modifies this, scheduler
      ensures Valid() && Cursor() == old(Cursor()) && |Items()| == |old(Items())|
      ensures Items()[..Cursor() + 1] == old(Items())[..Cursor() + 1]
      ensures multiset(QueueOf(Items(), Cursor())) == multiset(QueueOf(old(Items()), Cursor()))
      ensures scheduler.repeatEnabled == old(scheduler.repeatEnabled)
      ensures o == SHUFFLED && state == old(state) && paused == (state == PlayerState.PAUSED)
      ensures calls == old(calls) && notices == old(notices) + NoticeOf(state, SHUFFLED)
    {
      scheduler.Shuffle(draws);
      var isCurrentlyPaused := state == PlayerState.PAUSED;
      GotoState(state, Some(SHUFFLED), isCurrentlyPaused);
      return SHUFFLED;
    }

    /** clearQueue: drop the upcoming items only. */
    method ClearQueue()
      requires Valid()
      modifies scheduler
      ensures Valid() && Cursor() == old(Cursor()) && Items() == old(Items())[..Cursor() + 1]
      ensures scheduler.repeatEnabled == old(scheduler.repeatEnabled)
    {
      scheduler.ClearQueue();
    }

    /** getQueue */
    method GetQueue() returns (r: seq<QueueItem>)
      requires Valid()
      ensures r == QueueOf(Items(), Cursor())
    {
      r := scheduler.GetQueue();
    }

    /** getHistory */
    method GetHistory() returns (r: seq<QueueItem>)
      requires Valid()
      ensures r == HistoryOf(Items(), Cursor())
    {
      r := scheduler.GetHistory();
    }

    /** getCurrentItem */
    method GetCurrentItem() returns (r: Option<QueueItem>)
      ensures r == CurrentOf(Items(), Cursor())
    {
      r := scheduler.GetCurrentItem();
    }

    /** isRepeatEnabled */
    method IsRepeatEnabled() returns (r: bool)
      ensures r == scheduler.repeatEnabled
    {
      return scheduler.repeatEnabled;
    }

    /**
     * What onTrackEnd does, from the state before the call to the state
     * after it: nothing while LOADING; otherwise, with a next item, the track
     * is stopped, the cursor advances, the item is loaded and SKIPPED is
     * reported from LOADING; at the end of the list the track is stopped and
     * the player becomes STOPPED with NO_NEXT_TRACK. The list and the repeat
     * flag never change.
     */
    twostate predicate EndHandled()
      requires old(Valid())
      reads this, scheduler
    {
      && Valid() && Items() == old(Items()) && scheduler.repeatEnabled == old(scheduler.repeatEnabled)
      && (old(state) == LOADING ==>
            state == LOADING && paused == old(paused) && Cursor() == old(Cursor())
            && calls == old(calls) && notices == old(notices))
      && (old(state) != LOADING && old(Cursor()) + 1 < |Items()| ==>
            state == LOADING && !paused && Cursor() == old(Cursor()) + 1
            && calls == old(calls) + [StopTrack, LoadItem(Items()[Cursor()].track.identifier)]
            && notices == old(notices) + NoticeOf(LOADING, SKIPPED))
      && (old(state) != LOADING && old(Cursor()) + 1 >= |Items()| ==>
            state == PlayerState.STOPPED && !paused && Cursor() == old(Cursor())
            && calls == old(calls) + [StopTrack]
            && notices == old(notices) + NoticeOf(PlayerState.STOPPED, NO_NEXT_TRACK))
    }

    /** onTrackEnd: ignored while LOADING; in every other state the queue advances (or ends). */
    method OnTrackEnd()
      requires Valid()
      modifies this, scheduler
      ensures EndHandled()
    {
      if state != LOADING {
        var _ := PlayNextInQueue();
      }
    }

    /** trackLoaded callback: hand the loaded track to the lavaplayer. */
    method TrackLoaded(loaded: AudioTrack)
      modifies this
      ensures state == old(state) && paused == old(paused) && notices == old(notices)
      ensures calls == old(calls) + [Call.PlayTrack(loaded)]
    {
      calls := calls + [Call.PlayTrack(loaded)];
    }

    /** playlistLoaded callback: play the first track; an empty playlist throws in the callback and nothing happens. */
    method PlaylistLoaded(pl: AudioPlaylist)
      modifies this
      ensures state == old(state) && paused == old(paused) && notices == old(notices)
      ensures calls == old(calls) + (if pl.tracks == [] then [] else [Call.PlayTrack(pl.tracks[0])])
    {
      if pl.tracks != [] {
        calls := calls + [Call.PlayTrack(pl.tracks[0])];
      }
    }

    /**
     * noMatches callback: onTrackEnd. A load is started from LOADING, so
     * unless an event has moved the player on meanwhile, a failed load
     * changes nothing.
     */
    method NoMatches()
      requires Valid()
      modifies this, scheduler
      ensures EndHandled()
      ensures old(state) == LOADING ==>
        state == LOADING && Cursor() == old(Cursor()) && calls == old(calls) && notices == old(notices)
    {
      OnTrackEnd();
    }

    /** loadFailed callback: onTrackEnd, so it too is ignored while LOADING. */
    method LoadFailed()
      requires Valid()
      modifies this, scheduler
      ensures EndHandled()
      ensures old(state) == LOADING ==>
        state == LOADING && Cursor() == old(Cursor()) && calls == old(calls) && notices == old(notices)
    {
      OnTrackEnd();
    }
  }

  /** The lavaplayer event listener of one LavaLinkAudioPlayer. */
  class LavalinkEventHandler {
    const lavalinkPlayer: LavaLinkAudioPlayer

    constructor(lavalinkPlayer: LavaLinkAudioPlayer)
      ensures this.lavalinkPlayer == lavalinkPlayer
    {
      this.lavalinkPlayer := lavalinkPlayer;
    }

    /**
     * onTrackEnd: acts only when the end reason permits starting the next
     * track; with repeat on, a copy of the ended track is played again and the
     * scheduler is left alone; otherwise the player's onTrackEnd runs.
     */
    method OnTrackEnd(track: AudioTrack, endReason: EndReason)
      requires lavalinkPlayer.Valid()
      modifies lavalinkPlayer, lavalinkPlayer.scheduler
      ensures lavalinkPlayer.Valid() && lavalinkPlayer.Items() == old(lavalinkPlayer.Items())
      ensures lavalinkPlayer.scheduler.repeatEnabled == old(lavalinkPlayer.scheduler.repeatEnabled)
      ensures !endReason.MayStartNext() ==>
        lavalinkPlayer.state == old(lavalinkPlayer.state) && lavalinkPlayer.Cursor() == old(lavalinkPlayer.Cursor())
        && lavalinkPlayer.paused == old(lavalinkPlayer.paused)
        && lavalinkPlayer.calls == old(lavalinkPlayer.calls) && lavalinkPlayer.notices == old(lavalinkPlayer.notices)
      ensures endReason.MayStartNext() && lavalinkPlayer.scheduler.repeatEnabled ==>
        lavalinkPlayer.state == old(lavalinkPlayer.state) && lavalinkPlayer.Cursor() == old(lavalinkPlayer.Cursor())
        && lavalinkPlayer.paused == old(lavalinkPlayer.paused)
        && lavalinkPlayer.calls == old(lavalinkPlayer.calls) + [PlayTrack(track)]
        && lavalinkPlayer.notices == old(lavalinkPlayer.notices)
      ensures endReason.MayStartNext() && !lavalinkPlayer.scheduler.repeatEnabled ==> lavalinkPlayer.EndHandled()
    {
      if endReason.MayStartNext() {
        if lavalinkPlayer.scheduler.repeatEnabled {
          var freshCopy := track;
          lavalinkPlayer.calls := lavalinkPlayer.calls + [PlayTrack(freshCopy)];
        } else {
          lavalinkPlayer.OnTrackEnd();
        }
      }
    }

    /** onTrackStart: the player becomes PLAYING, unpaused, with PLAYING_NOW. */
    method OnTrackStart(track: AudioTrack)
      modifies lavalinkPlayer
      ensures lavalinkPlayer.state == PLAYING && !lavalinkPlayer.paused
      ensures lavalinkPlayer.calls == old(lavalinkPlayer.calls)
      ensures lavalinkPlayer.notices == old(lavalinkPlayer.notices) + lavalinkPlayer.NoticeOf(PLAYING, PLAYING_NOW)
    {
      lavalinkPlayer.GotoState(PLAYING, Some(PLAYING_NOW), false);
    }

    /** onTrackException: always the player's onTrackEnd. */
    method OnTrackException(track: AudioTrack)
      requires lavalinkPlayer.Valid()
      modifies lavalinkPlayer, lavalinkPlayer.scheduler
      ensures lavalinkPlayer.EndHandled()
    {
      lavalinkPlayer.OnTrackEnd();
    }

    /** onTrackStuck: always the player's onTrackEnd. */
    method OnTrackStuck(track: AudioTrack, thresholdMs: int)
      requires lavalinkPlayer.Valid()
      modifies lavalinkPlayer, lavalinkPlayer.scheduler
      ensures lavalinkPlayer.EndHandled()
    {
      lavalinkPlayer.OnTrackEnd();
    }
  }
}

/**
 * The src tree's per-guild Player and its PlayerEventProcessor. The player
 * keeps a state, a repeat flag, a position and a volume next to its queue
 * (SrcTrackScheduler), and publishes snapshots to the shared state store.
 *
 * Calls to the Lavalink node (play, stop, pause) are recorded in `requests`,
 * in the order the player issues them. The node handler
 * (PlayerActionsHandler) swallows every node error, so in the program as
 * wired a pause or resume always succeeds. Pause and resume still take the
 * node's answer as the parameter nodeOk; nodeOk = false follows the rollback
 * branch the player codes for a failed pause or resume.
 */
module SrcPlayer {
  import opened Wrappers
  import opened Common
  import opened LavalinkClient
  import opened QueueView
  import Lavaplayer
  import Scheduler = SrcTrackScheduler
  import Store = PlayerStateStore

  /** A call made to the node player. */
  datatype NodeRequest = PlayRequest(track: Track, volume: int) | StopRequest | PauseRequest(paused: bool)

  /** How a returned Mono ends: empty, with "No track to play", or with the node's error. */
  datatype Completion = Done | NoTrackToPlay | NodeFailed

  class Player {
    const guildId: int
    const stateStore: Store.StateStore
    const trackScheduler: Scheduler.TrackScheduler
    var state: PlayerState
    var repeat: bool
    var positionMs: int
    var volume: int
    var requests: seq<NodeRequest>

    ghost predicate Valid()
      reads trackScheduler
    {
      trackScheduler.Valid()
    }

    /** The tracks and cursor of the queue, for contracts. */
    ghost function Queue(): (seq<Track>, int)
      reads this, trackScheduler
    {
      (trackScheduler.tracks, trackScheduler.currentIndex)
    }

    /** The player's own fields other than the request log. */
    ghost function Status(): (PlayerState, bool, int, int)
      reads this
    {
      (state, repeat, positionMs, volume)
    }

    /** The current track, as getCurrentTrack reports it. */
    ghost function Current(): Option<Track>
      reads trackScheduler
    {
      CurrentOf(trackScheduler.tracks, trackScheduler.currentIndex)
    }

    /** The snapshot publishUIState sends: history, current and queue come from the scheduler. */
    function UISnapshot(): (s: Store.PlayerUIState)
      requires Valid()
      reads this`state, this`volume, this`repeat, trackScheduler
      ensures s.history + AsList(s.currentTrack) + s.queue == trackScheduler.tracks
    {
      Partition(trackScheduler.tracks, trackScheduler.currentIndex);
      Store.PlayerUIState(guildId, state, volume, repeat,
        CurrentOf(trackScheduler.tracks, trackScheduler.currentIndex),
        QueueOf(trackScheduler.tracks, trackScheduler.currentIndex),
        HistoryOf(trackScheduler.tracks, trackScheduler.currentIndex))
    }

    /** The snapshot publishUIState would send with the cursor at `cursor` over the same list. */
    ghost function UISnapshotAt(cursor: int): Store.PlayerUIState
      requires -1 <= cursor <= |trackScheduler.tracks|
      reads this`state, this`volume, this`repeat, trackScheduler`tracks
    {
      Store.PlayerUIState(guildId, state, volume, repeat,
        CurrentOf(trackScheduler.tracks, cursor),
        QueueOf(trackScheduler.tracks, cursor),
        HistoryOf(trackScheduler.tracks, cursor))
    }

    /** The position publishPosition sends: the current track's length, or 0 without one. */
    function PositionSnapshot(): (p: Store.PlayerPosition)
      reads this`positionMs, trackScheduler
      ensures p.positionMs == positionMs
      ensures Current().None? ==> p.lengthMs == 0
      ensures Current().Some? ==> p.lengthMs == Current().value.length
    {
      var t := CurrentOf(trackScheduler.tracks, trackScheduler.currentIndex);
      Store.PlayerPosition(guildId, positionMs, if t.Some? then t.value.length else 0)
    }

    /** A new player: STOPPED, repeat off, position 0, volume 100, empty queue; its status is published. */
    constructor(guildId: int, stateStore: Store.StateStore)
      modifies stateStore
      ensures Valid() && fresh(trackScheduler)
      ensures this.guildId == guildId && this.stateStore == stateStore
      ensures state == STOPPED && !repeat && positionMs == 0 && volume == 100
      ensures trackScheduler.tracks == [] && requests == []
      ensures stateStore.currentUI == old(stateStore.currentUI)[guildId := UISnapshot()]
      ensures stateStore.currentPosition == old(stateStore.currentPosition)[guildId := PositionSnapshot()]
    {
      this.guildId := guildId;
      this.stateStore := stateStore;
      trackScheduler := new Scheduler.TrackScheduler();
      state := STOPPED;
      repeat := false;
      positionMs := 0;
      volume := 100;
      requests := [];
      new;
      PublishStatus();
    }

    /** publishUIState */
    method PublishUIState()
      requires Valid()
      modifies stateStore
      ensures stateStore.currentUI == old(stateStore.currentUI)[guildId := UISnapshot()]
      ensures stateStore.currentPosition == old(stateStore.currentPosition)
    {
      stateStore.SetUIState(UISnapshot());
    }

    /** publishPosition */
    method PublishPosition()
      modifies stateStore
      ensures stateStore.currentPosition == old(stateStore.currentPosition)[guildId := PositionSnapshot()]
      ensures stateStore.currentUI == old(stateStore.currentUI)
    {
      stateStore.SetPosition(PositionSnapshot());
    }

    /** publishStatus */
    method PublishStatus()
      requires Valid()
      modifies stateStore
      ensures stateStore.currentUI == old(stateStore.currentUI)[guildId := UISnapshot()]
      ensures stateStore.currentPosition == old(stateStore.currentPosition)[guildId := PositionSnapshot()]
    {
      PublishUIState();
      PublishPosition();
    }

    /** playCurrentTrack: ask the node to play the current track, or fail when there is none. */
    method PlayCurrentTrack() returns (c: Completion)
      requires Valid()
      modifies this`requests
      ensures Valid() && Status() == old(Status())
      ensures Current().Some? ==> c == Done && requests == old(requests) + [PlayRequest(Current().value, volume)]
      ensures Current().None? ==> c == NoTrackToPlay && requests == old(requests)
    {
      var track := trackScheduler.GetCurrentTrack();
      if track.None? {
        return NoTrackToPlay;
      }
      requests := requests + [PlayRequest(track.value, volume)];
      return Done;
    }

    /**
     * playNextOrBecomeIdle: play the next track when the queue moves; otherwise
     * only publish. The state is never changed here.
     */
    method PlayNextOrBecomeIdle() returns (c: Completion)
      requires Valid()
      modifies this`requests, trackScheduler, stateStore
      ensures Valid() && Status() == old(Status()) && trackScheduler.tracks == old(trackScheduler.tracks)
      ensures c == Done
      ensures old(trackScheduler.currentIndex) + 1 < |trackScheduler.tracks| ==>
        && trackScheduler.currentIndex == old(trackScheduler.currentIndex) + 1
        && requests == old(requests) + [PlayRequest(Current().value, volume)]
        && stateStore.currentUI == old(stateStore.currentUI)
      ensures old(trackScheduler.currentIndex) + 1 >= |trackScheduler.tracks| ==>
        && trackScheduler.currentIndex == old(trackScheduler.currentIndex)
        && requests == old(requests)
        && stateStore.currentUI == old(stateStore.currentUI)[guildId := UISnapshot()]
      ensures stateStore.currentPosition == old(stateStore.currentPosition)
    {
      var next := trackScheduler.Next();
      if next.Some? {
        c := PlayCurrentTrack();
        return;
      }
      PublishUIState();
      return Done;
    }

    /** replayCurrent: play the current track again, or do nothing without one. */
    method ReplayCurrent() returns (c: Completion)
      requires Valid()
      modifies this`requests
      ensures Valid() && Status() == old(Status()) && c == Done
      ensures Current().Some? ==> requests == old(requests) + [PlayRequest(Current().value, volume)]
      ensures Current().None? ==> requests == old(requests)
    {
      var current := trackScheduler.GetCurrentTrack();
      if current.None? {
        return Done;
      }
      c := PlayCurrentTrack();
    }

    /**
     * play: when STOPPED or PAUSED, insert the track after the current one,
     * move onto it and ask the node to play it, without publishing; in any
     * other state only append it to the queue and publish. The state itself
     * is left to the node's events.
     */
    method Play(track: Track) returns (c: Completion)
      requires Valid()
      modifies this`requests, trackScheduler, stateStore
      ensures Valid() && Status() == old(Status()) && c == Done
      ensures old(state) == STOPPED || old(state) == PAUSED ==>
        && trackScheduler.currentIndex == old(trackScheduler.currentIndex) + 1
        && trackScheduler.tracks == old(trackScheduler.tracks)[..old(trackScheduler.currentIndex) + 1] + [track]
             + old(trackScheduler.tracks)[old(trackScheduler.currentIndex) + 1..]
        && Current() == Some(track)
        && requests == old(requests) + [PlayRequest(track, volume)]
        && multiset(trackScheduler.tracks) == multiset(old(trackScheduler.tracks)) + multiset{track}
        && stateStore.currentUI == old(stateStore.currentUI)
      ensures !(old(state) == STOPPED || old(state) == PAUSED) ==>
        && trackScheduler.tracks == old(trackScheduler.tracks) + [track]
        && trackScheduler.currentIndex == (if old(trackScheduler.currentIndex) == -1 then 0 else old(trackScheduler.currentIndex))
        && requests == old(requests)
        && stateStore.currentUI == old(stateStore.currentUI)[guildId := UISnapshot()]
      ensures stateStore.currentPosition == old(stateStore.currentPosition)
    {
      if state == STOPPED || state == PAUSED {
        ghost var cursor := trackScheduler.currentIndex;
        trackScheduler.Push(track);
        assert trackScheduler.tracks[cursor + 1] == track;
        var _ := trackScheduler.Next();
        c := PlayCurrentTrack();
        return;
      }
      trackScheduler.Enqueue(track);
      PublishUIState();
      return Done;
    }

    /** The first half of playNow: push the track after the current one and publish the UI state. */
    method PushAndPublish(track: Track)
      requires Valid()
      modifies trackScheduler, stateStore
      ensures Valid() && Status() == old(Status()) && requests == old(requests)
      ensures trackScheduler.currentIndex == (if old(trackScheduler.currentIndex) == -1 then 0 else old(trackScheduler.currentIndex))
      ensures trackScheduler.tracks == old(trackScheduler.tracks)[..old(trackScheduler.currentIndex) + 1] + [track]
        + old(trackScheduler.tracks)[old(trackScheduler.currentIndex) + 1..]
      ensures trackScheduler.tracks[old(trackScheduler.currentIndex) + 1] == track
      ensures multiset(trackScheduler.tracks) == multiset(old(trackScheduler.tracks)) + multiset{track}
      ensures stateStore.currentUI == old(stateStore.currentUI)[guildId := UISnapshot()]
      ensures stateStore.currentPosition == old(stateStore.currentPosition)
    {
      ghost var cursor := trackScheduler.currentIndex;
      trackScheduler.Push(track);
      assert trackScheduler.tracks[cursor + 1] == track;
      PublishUIState();
    }

    /**
     * playNow: insert the track after the current one, publish, then skip onto
     * it. On an empty queue the push makes the track current at once, so the
     * skip finds no next track and nothing is played.
     */
    method PlayNow(track: Track) returns (c: Completion)
      requires Valid()
      modifies this`requests, trackScheduler, stateStore
      ensures Valid() && Status() == old(Status()) && c == Done
      ensures Current() == Some(track)
      ensures multiset(trackScheduler.tracks) == multiset(old(trackScheduler.tracks)) + multiset{track}
      ensures trackScheduler.currentIndex == old(trackScheduler.currentIndex) + 1
      ensures trackScheduler.tracks == old(trackScheduler.tracks)[..old(trackScheduler.currentIndex) + 1] + [track]
        + old(trackScheduler.tracks)[old(trackScheduler.currentIndex) + 1..]
      ensures old(trackScheduler.tracks) != [] ==> requests == old(requests) + [PlayRequest(track, volume)]
      ensures old(trackScheduler.tracks) == [] ==> requests == old(requests)
      ensures old(trackScheduler.tracks) != [] ==>
        && stateStore.currentUI == old(stateStore.currentUI)[guildId := UISnapshotAt(old(trackScheduler.currentIndex))]
        && stateStore.currentUI[guildId].currentTrack == old(Current())
        && stateStore.currentUI[guildId].queue != [] && stateStore.currentUI[guildId].queue[0] == track
      ensures old(trackScheduler.tracks) == [] ==> stateStore.currentUI == old(stateStore.currentUI)[guildId := UISnapshot()]
      ensures stateStore.currentPosition == old(stateStore.currentPosition)
    {
      ghost var cursor := trackScheduler.currentIndex;
      PushAndPublish(track);
      assert cursor >= 0 ==> stateStore.currentUI[guildId] == UISnapshotAt(cursor);
      c := Skip();
    }

    /**
     * playNow as its documentation describes it: the track is played
     * immediately in every case; on an empty queue, where the skip inside
     * playNow finds no next track, the now current track is played.
     */
    method PlayNowImmediately(track: Track) returns (c: Completion)
      requires Valid()
      modifies this`requests, trackScheduler, stateStore
      ensures Valid() && Status() == old(Status()) && c == Done
      ensures Current() == Some(track)
      ensures multiset(trackScheduler.tracks) == multiset(old(trackScheduler.tracks)) + multiset{track}
      ensures trackScheduler.currentIndex == old(trackScheduler.currentIndex) + 1
      ensures trackScheduler.tracks == old(trackScheduler.tracks)[..old(trackScheduler.currentIndex) + 1] + [track]
        + old(trackScheduler.tracks)[old(trackScheduler.currentIndex) + 1..]
      ensures requests == old(requests) + [PlayRequest(track, volume)]
      ensures old(trackScheduler.tracks) != [] ==>
        && stateStore.currentUI == old(stateStore.currentUI)[guildId := UISnapshotAt(old(trackScheduler.currentIndex))]
        && stateStore.currentUI[guildId].currentTrack == old(Current())
        && stateStore.currentUI[guildId].queue != [] && stateStore.currentUI[guildId].queue[0] == track
      ensures old(trackScheduler.tracks) == [] ==> stateStore.currentUI == old(stateStore.currentUI)[guildId := UISnapshot()]
      ensures stateStore.currentPosition == old(stateStore.currentPosition)
    {
      var wasEmpty := trackScheduler.currentIndex == -1;
      c := PlayNow(track);
      if wasEmpty {
        c := PlayCurrentTrack();
      }
    }

    /** stop: empty the queue, publish, and ask the node to stop; the state is left to the node's events. */
    method Stop() returns (c: Completion)
      requires Valid()
      modifies this`requests, trackScheduler, stateStore
      ensures Valid() && Status() == old(Status()) && c == Done
      ensures trackScheduler.tracks == [] && trackScheduler.currentIndex == -1
      ensures Current() == None && UISnapshot().queue == [] && UISnapshot().history == []
      ensures requests == old(requests) + [StopRequest]
      ensures stateStore.currentUI == old(stateStore.currentUI)[guildId := UISnapshot()]
      ensures stateStore.currentPosition == old(stateStore.currentPosition)
    {
      trackScheduler.ClearAll();
      PublishUIState();
      requests := requests + [StopRequest];
      return Done;
    }

    /** skip: play the next track when the queue moves; otherwise publish and leave playback as is. */
    method Skip() returns (c: Completion)
      requires Valid()
      modifies this`requests, trackScheduler, stateStore
      ensures Valid() && Status() == old(Status()) && c == Done
      ensures trackScheduler.tracks == old(trackScheduler.tracks)
      ensures old(trackScheduler.currentIndex) + 1 < |trackScheduler.tracks| ==>
        && trackScheduler.currentIndex == old(trackScheduler.currentIndex) + 1
        && requests == old(requests) + [PlayRequest(Current().value, volume)]
        && stateStore.currentUI == old(stateStore.currentUI)
      ensures old(trackScheduler.currentIndex) + 1 >= |trackScheduler.tracks| ==>
        && trackScheduler.currentIndex == old(trackScheduler.currentIndex)
        && requests == old(requests)
        && stateStore.currentUI == old(stateStore.currentUI)[guildId := UISnapshot()]
      ensures stateStore.currentPosition == old(stateStore.currentPosition)
    {
      var next := trackScheduler.Next();
      if next.Some? {
        c := PlayCurrentTrack();
        return;
      }
      PublishUIState();
      return Done;
    }

    /** previous: play the previous track when the queue moves back; otherwise publish only. */
    method Previous() returns (c: Completion)
      requires Valid()
      modifies this`requests, trackScheduler, stateStore
      ensures Valid() && Status() == old(Status()) && c == Done
      ensures trackScheduler.tracks == old(trackScheduler.tracks)
      ensures old(trackScheduler.currentIndex) >= 1 ==>
        && trackScheduler.currentIndex == old(trackScheduler.currentIndex) - 1
        && requests == old(requests) + [PlayRequest(Current().value, volume)]
        && stateStore.currentUI == old(stateStore.currentUI)
      ensures old(trackScheduler.currentIndex) < 1 ==>
        && trackScheduler.currentIndex == old(trackScheduler.currentIndex)
        && requests == old(requests)
        && stateStore.currentUI == old(stateStore.currentUI)[guildId := UISnapshot()]
      ensures stateStore.currentPosition == old(stateStore.currentPosition)
    {
      var prev := trackScheduler.Previous();
      if prev.Some? {
        c := PlayCurrentTrack();
        return;
      }
      PublishUIState();
      return Done;
    }

    /**
     * pause: a no-op (apart from publishing) when already PAUSED; otherwise the
     * state becomes PAUSED before the node is asked, and goes back to what it
     * was when the node reports an error.
     */
    method Pause(nodeOk: bool) returns (c: Completion)
      requires Valid()
      modifies this`state, this`positionMs, this`requests, stateStore
      ensures Valid() && repeat == old(repeat) && volume == old(volume)
      ensures old(state) == PAUSED ==>
        Status() == old(Status()) && requests == old(requests) && c == Done
      ensures old(state) != PAUSED ==> requests == old(requests) + [PauseRequest(true)]
      ensures old(state) != PAUSED && nodeOk ==> state == PAUSED && c == Done
      ensures old(state) != PAUSED && !nodeOk ==> state == old(state) && c == NodeFailed
      ensures positionMs == (if old(state) == STOPPED && !nodeOk then 0 else old(positionMs))
      ensures stateStore.currentUI == old(stateStore.currentUI)[guildId := UISnapshot()]
      ensures old(state) == PAUSED ==> stateStore.currentPosition == old(stateStore.currentPosition)
      ensures old(state) != PAUSED ==>
        stateStore.currentPosition == old(stateStore.currentPosition)[guildId := PositionSnapshot()]
    {
      if state == PAUSED {
        PublishUIState();
        return Done;
      }
      c := SwitchPaused(PAUSED, nodeOk);
    }

    /**
     * The part pause and resume share once the state differs from the target:
     * switch to the target, ask the node to pause (target PAUSED) or resume,
     * and on a node error switch back to the state before.
     */
    method SwitchPaused(target: PlayerState, nodeOk: bool) returns (c: Completion)
      requires Valid() && state != target
      modifies this`state, this`positionMs, this`requests, stateStore
      ensures Valid() && repeat == old(repeat) && volume == old(volume)
      ensures requests == old(requests) + [PauseRequest(target == PAUSED)]
      ensures nodeOk ==> state == target && c == Done
      ensures !nodeOk ==> state == old(state) && c == NodeFailed
      ensures positionMs == (if target == STOPPED || (old(state) == STOPPED && !nodeOk) then 0 else old(positionMs))
      ensures stateStore.currentUI == old(stateStore.currentUI)[guildId := UISnapshot()]
      ensures stateStore.currentPosition == old(stateStore.currentPosition)[guildId := PositionSnapshot()]
    {
      var previousState := state;
      ghost var ui0, pos0 := stateStore.currentUI, stateStore.currentPosition;
      UpdateState(target);
      requests := requests + [PauseRequest(target == PAUSED)];
      if !nodeOk {
        ghost var ui1, pos1 := stateStore.currentUI, stateStore.currentPosition;
        UpdateState(previousState);
        Overwrite(ui0, guildId, ui1[guildId], UISnapshot());
        Overwrite(pos0, guildId, pos1[guildId], PositionSnapshot());
        return NodeFailed;
      }
      return Done;
    }

    /** resume: the mirror image of pause, with PLAYING in place of PAUSED. */
    method Resume(nodeOk: bool) returns (c: Completion)
      requires Valid()
      modifies this`state, this`positionMs, this`requests, stateStore
      ensures Valid() && repeat == old(repeat) && volume == old(volume)
      ensures old(state) == PLAYING ==>
        Status() == old(Status()) && requests == old(requests) && c == Done
      ensures old(state) != PLAYING ==> requests == old(requests) + [PauseRequest(false)]
      ensures old(state) != PLAYING && nodeOk ==> state == PLAYING && c == Done
      ensures old(state) != PLAYING && !nodeOk ==> state == old(state) && c == NodeFailed
      ensures positionMs == (if old(state) == STOPPED && !nodeOk then 0 else old(positionMs))
      ensures stateStore.currentUI == old(stateStore.currentUI)[guildId := UISnapshot()]
      ensures old(state) == PLAYING ==> stateStore.currentPosition == old(stateStore.currentPosition)
      ensures old(state) != PLAYING ==>
        stateStore.currentPosition == old(stateStore.currentPosition)[guildId := PositionSnapshot()]
    {
      if state == PLAYING {
        PublishUIState();
        return Done;
      }
      c := SwitchPaused(PLAYING, nodeOk);
    }

    /** jumpToTrack: follow a dropdown value; play the track reached, or publish when nothing moved. */
    method JumpToTrack(trackIdentifier: string) returns (c: Completion)
      requires Valid()
      modifies this`requests, trackScheduler, stateStore
      ensures Valid() && Status() == old(Status()) && c == Done
      ensures trackScheduler.tracks == old(trackScheduler.tracks)
      ensures match Scheduler.JumpTarget(trackScheduler.tracks, old(trackScheduler.currentIndex), trackIdentifier)
        case JumpTo(i) =>
          trackScheduler.currentIndex == i
          && requests == old(requests) + [PlayRequest(trackScheduler.tracks[i], volume)]
          && stateStore.currentUI == old(stateStore.currentUI)
        case KeepCurrent =>
          trackScheduler.currentIndex == old(trackScheduler.currentIndex)
          && requests == old(requests) + AsList(if Current().Some? then Some(PlayRequest(Current().value, volume)) else None)
          && stateStore.currentUI == (if Current().Some? then old(stateStore.currentUI)
                                      else old(stateStore.currentUI)[guildId := UISnapshot()])
        case NoJump =>
          trackScheduler.currentIndex == old(trackScheduler.currentIndex) && requests == old(requests)
          && stateStore.currentUI == old(stateStore.currentUI)[guildId := UISnapshot()]
      ensures stateStore.currentPosition == old(stateStore.currentPosition)
    {
      ghost var jump := Scheduler.JumpTarget(trackScheduler.tracks, trackScheduler.currentIndex, trackIdentifier);
      var target := trackScheduler.JumpToPrefixedIdentifier(trackIdentifier);
      if target.Some? {
        assert !jump.NoJump?;
        c := PlayCurrentTrack();
        return;
      }
      assert jump.NoJump? || (jump.KeepCurrent? && Current().None?);
      PublishUIState();
      return Done;
    }

    /** shuffle: permute the upcoming tracks and publish. */
    method Shuffle(draws: seq<nat>)
      requires Valid()
      modifies trackScheduler, stateStore
      ensures Valid() && trackScheduler.currentIndex == old(trackScheduler.currentIndex)
      ensures |trackScheduler.tracks| == |old(trackScheduler.tracks)|
      ensures trackScheduler.tracks[..trackScheduler.currentIndex + 1] ==
        old(trackScheduler.tracks)[..trackScheduler.currentIndex + 1]
      ensures multiset(trackScheduler.tracks) == multiset(old(trackScheduler.tracks))
      ensures stateStore.currentUI == old(stateStore.currentUI)[guildId := UISnapshot()]
      ensures stateStore.currentPosition == old(stateStore.currentPosition)
    {
      ghost var before := trackScheduler.tracks;
      trackScheduler.Shuffle(draws);
      SplitAtCursor(before, trackScheduler.currentIndex);
      SplitAtCursor(trackScheduler.tracks, trackScheduler.currentIndex);
      PublishUIState();
    }

    /** toggleRepeat: flip the flag and publish. */
    method ToggleRepeat()
      requires Valid()
      modifies this`repeat, stateStore
      ensures Valid() && repeat == !old(repeat)
      ensures state == old(state) && positionMs == old(positionMs) && volume == old(volume) && requests == old(requests)
      ensures stateStore.currentUI == old(stateStore.currentUI)[guildId := UISnapshot()]
      ensures stateStore.currentPosition == old(stateStore.currentPosition)
    {
      repeat := !repeat;
      PublishUIState();
    }

    /** isRepeatEnabled */
    method IsRepeatEnabled() returns (r: bool)
      ensures r == repeat
    {
      return repeat;
    }

    /** getQueue: the scheduler's upcoming tracks. */
    method GetQueue() returns (r: seq<Track>)
      requires Valid()
      ensures r == QueueOf(trackScheduler.tracks, trackScheduler.currentIndex)
      ensures HistoryOf(trackScheduler.tracks, trackScheduler.currentIndex) + AsList(Current()) + r == trackScheduler.tracks
    {
      Partition(trackScheduler.tracks, trackScheduler.currentIndex);
      r := trackScheduler.GetQueue();
    }

    /** updateState: set the state; STOPPED also resets the position to 0. Both snapshots are published. */
    method UpdateState(newState: PlayerState)
      requires Valid()
      modifies this`state, this`positionMs, stateStore
      ensures Valid() && state == newState && repeat == old(repeat) && volume == old(volume)
      ensures positionMs == (if newState == STOPPED then 0 else old(positionMs))
      ensures requests == old(requests)
      ensures stateStore.currentUI == old(stateStore.currentUI)[guildId := UISnapshot()]
      ensures stateStore.currentPosition == old(stateStore.currentPosition)[guildId := PositionSnapshot()]
    {
      state := newState;
      if newState == STOPPED {
        positionMs := 0;
      }
      ghost var ui := UISnapshot();
      ghost var ui0, pos0 := old(stateStore.currentUI), old(stateStore.currentPosition);
      PublishUIState();
      ghost var ui1 := stateStore.currentUI;
      assert ui1 == ui0[guildId := ui] && stateStore.currentPosition == pos0;
      PublishPosition();
      assert stateStore.currentUI == ui1;
    }

    /** updatePosition: set the position and publish it; nothing else changes. */
    method UpdatePosition(newPositionMs: int)
      requires Valid()
      modifies this`positionMs, stateStore
      ensures Valid() && positionMs == newPositionMs
      ensures state == old(state) && repeat == old(repeat) && volume == old(volume) && requests == old(requests)
      ensures stateStore.currentUI == old(stateStore.currentUI)
      ensures stateStore.currentPosition == old(stateStore.currentPosition)[guildId := PositionSnapshot()]
    {
      positionMs := newPositionMs;
      PublishPosition();
    }
  }

  /** Writing a key twice keeps only the second value. */
  lemma Overwrite<K, V>(m: map<K, V>, k: K, first: V, second: V)
    ensures m[k := first][k := second] == m[k := second]
  {
  }

  /** PlayerEventProcessor: turns the node's events into player calls. It holds only its player. */
  class PlayerEventProcessor {
    const player: Player

    constructor(player: Player)
      ensures this.player == player
    {
      this.player := player;
    }

    /** onTrackStart: the player becomes PLAYING at position 0. */
    method OnTrackStart(track: Track)
      requires player.Valid()
      modifies player, player.stateStore
      ensures player.Valid() && player.state == PLAYING && player.positionMs == 0
      ensures player.repeat == old(player.repeat) && player.volume == old(player.volume)
      ensures player.requests == old(player.requests) && player.Queue() == old(player.Queue())
      ensures player.stateStore.currentUI == old(player.stateStore.currentUI)[player.guildId := player.UISnapshot()]
      ensures player.stateStore.currentPosition ==
        old(player.stateStore.currentPosition)[player.guildId := player.PositionSnapshot()]
    {
      player.UpdateState(PLAYING);
      player.UpdatePosition(0);
    }

    /** onPlayerUpdate: only the position changes. */
    method OnPlayerUpdate(positionMillis: int)
      requires player.Valid()
      modifies player, player.stateStore
      ensures player.Valid() && player.positionMs == positionMillis
      ensures player.state == old(player.state) && player.repeat == old(player.repeat)
      ensures player.volume == old(player.volume)
      ensures player.requests == old(player.requests) && player.Queue() == old(player.Queue())
      ensures player.stateStore.currentUI == old(player.stateStore.currentUI)
      ensures player.stateStore.currentPosition ==
        old(player.stateStore.currentPosition)[player.guildId := player.PositionSnapshot()]
    {
      player.UpdatePosition(positionMillis);
    }

    /**
     * onTrackEnd, by end reason: FINISHED replays the current track when
     * repeat is on and otherwise advances or idles; LOAD_FAILED advances or
     * idles; STOPPED makes the player STOPPED; REPLACED and CLEANUP do nothing.
     * Errors are swallowed, so the call always completes.
     */
    method OnTrackEnd(track: Track, endReason: Lavaplayer.EndReason)
      requires player.Valid()
      modifies player, player.trackScheduler, player.stateStore
      ensures player.Valid() && player.trackScheduler.tracks == old(player.trackScheduler.tracks)
      ensures player.repeat == old(player.repeat) && player.volume == old(player.volume)
      ensures endReason != Lavaplayer.EndReason.STOPPED ==>
        && player.positionMs == old(player.positionMs)
        && player.stateStore.currentPosition == old(player.stateStore.currentPosition)
      ensures endReason == Lavaplayer.EndReason.FINISHED && player.repeat ==>
        && player.Queue() == old(player.Queue())
        && player.state == old(player.state)
        && player.stateStore.currentUI == old(player.stateStore.currentUI)
        && player.requests == old(player.requests) + AsList(if player.Current().Some? then Some(PlayRequest(player.Current().value, player.volume)) else None)
      ensures (endReason == Lavaplayer.EndReason.FINISHED && !player.repeat) || endReason == Lavaplayer.EndReason.LOAD_FAILED ==>
        && player.state == old(player.state)
        && (old(player.trackScheduler.currentIndex) + 1 < |player.trackScheduler.tracks| ==>
              player.trackScheduler.currentIndex == old(player.trackScheduler.currentIndex) + 1
              && player.requests == old(player.requests) + [PlayRequest(player.Current().value, player.volume)]
              && player.stateStore.currentUI == old(player.stateStore.currentUI))
        && (old(player.trackScheduler.currentIndex) + 1 >= |player.trackScheduler.tracks| ==>
              player.trackScheduler.currentIndex == old(player.trackScheduler.currentIndex)
              && player.requests == old(player.requests)
              && player.stateStore.currentUI == old(player.stateStore.currentUI)[player.guildId := player.UISnapshot()])
      ensures endReason == Lavaplayer.EndReason.STOPPED ==>
        && player.state == STOPPED && player.positionMs == 0
        && player.Queue() == old(player.Queue()) && player.requests == old(player.requests)
        && player.stateStore.currentUI == old(player.stateStore.currentUI)[player.guildId := player.UISnapshot()]
        && player.stateStore.currentPosition ==
             old(player.stateStore.currentPosition)[player.guildId := player.PositionSnapshot()]
      ensures endReason == Lavaplayer.EndReason.REPLACED || endReason == Lavaplayer.EndReason.CLEANUP ==>
        && player.Status() == old(player.Status()) && player.Queue() == old(player.Queue())
        && player.requests == old(player.requests)
        && player.stateStore.currentUI == old(player.stateStore.currentUI)
    {
      match endReason
      case FINISHED =>
        if player.repeat {
          var _ := player.ReplayCurrent();
        } else {
          var _ := player.PlayNextOrBecomeIdle();
        }
      case REPLACED =>
      case STOPPED =>
        player.UpdateState(STOPPED);
      case LOAD_FAILED =>
        var _ := player.PlayNextOrBecomeIdle();
      case CLEANUP =>
    }

    /** onTrackException: advance or idle, like a FINISHED end without repeat. */
    method OnTrackException(track: Track)
      requires player.Valid()
      modifies player, player.trackScheduler, player.stateStore
      ensures player.Valid() && player.Status() == old(player.Status())
      ensures player.trackScheduler.tracks == old(player.trackScheduler.tracks)
      ensures old(player.trackScheduler.currentIndex) + 1 < |player.trackScheduler.tracks| ==>
        player.trackScheduler.currentIndex == old(player.trackScheduler.currentIndex) + 1
        && player.requests == old(player.requests) + [PlayRequest(player.Current().value, player.volume)]
        && player.stateStore.currentUI == old(player.stateStore.currentUI)
      ensures old(player.trackScheduler.currentIndex) + 1 >= |player.trackScheduler.tracks| ==>
        player.trackScheduler.currentIndex == old(player.trackScheduler.currentIndex)
        && player.requests == old(player.requests)
        && player.stateStore.currentUI == old(player.stateStore.currentUI)[player.guildId := player.UISnapshot()]
      ensures player.stateStore.currentPosition == old(player.stateStore.currentPosition)
    {
      var _ := player.PlayNextOrBecomeIdle();
    }

    /** onTrackStuck: advance or idle, like a FINISHED end without repeat. */
    method OnTrackStuck(track: Track, thresholdMs: int)
      requires player.Valid()
      modifies player, player.trackScheduler, player.stateStore
      ensures player.Valid() && player.Status() == old(player.Status())
      ensures player.trackScheduler.tracks == old(player.trackScheduler.tracks)
      ensures old(player.trackScheduler.currentIndex) + 1 < |player.trackScheduler.tracks| ==>
        player.trackScheduler.currentIndex == old(player.trackScheduler.currentIndex) + 1
        && player.requests == old(player.requests) + [PlayRequest(player.Current().value, player.volume)]
        && player.stateStore.currentUI == old(player.stateStore.currentUI)
      ensures old(player.trackScheduler.currentIndex) + 1 >= |player.trackScheduler.tracks| ==>
        player.trackScheduler.currentIndex == old(player.trackScheduler.currentIndex)
        && player.requests == old(player.requests)
        && player.stateStore.currentUI == old(player.stateStore.currentUI)[player.guildId := player.UISnapshot()]
      ensures player.stateStore.currentPosition == old(player.stateStore.currentPosition)
    {
      var _ := player.PlayNextOrBecomeIdle();
    }
  }
}

/**
 * The throttle rule both ProgressBarScheduler classes apply once a second
 * to every guild with a panel message: recompute the bar head's index out
 * of 20 and record it, with the time, only when the interval chosen for the
 * track's length has passed since the last recorded edit and the head has
 * moved.
 */
module ProgressThrottle {
  import opened JavaMath
  import BackendProgressBar

  /** What a tick reads for a guild whose player is playing: position and length. */
  datatype Reading = Reading(positionMs: int, lengthMs: int)

  /** chooseInterval: 5 s up to five minutes, 8 s up to fifteen minutes, 12 s beyond. */
  function ChooseInterval(durMs: int): (interval: int)
    ensures interval == 5_000 || interval == 8_000 || interval == 12_000
    ensures interval == 5_000 <==> durMs <= 5 * 60_000
    ensures interval == 12_000 <==> durMs > 15 * 60_000
  {
    if durMs <= 5 * 60_000 then 5_000
    else if durMs <= 15 * 60_000 then 8_000
    else 12_000
  }

  /** A longer track is never redrawn more often than a shorter one. */
  lemma ChooseIntervalMonotone(a: int, b: int)
    requires a <= b
    ensures ChooseInterval(a) <= ChooseInterval(b)
  {
  }

  /** (int) (20 * pos / dur) when dur > 0, otherwise 0. */
  function HeadIdx(pos: int, dur: int): int {
    if dur > 0 then Wrap32(JavaDiv(20 * pos, dur)) else 0
  }

  /**
   * Within the track the index lies in 0..19, never moves back as the
   * position advances, and is the glyph the backend bar draws its head on.
   */
  lemma HeadIdxWithinTrack(p: int, q: int, dur: int)
    requires 0 <= p <= q < dur
    ensures 0 <= HeadIdx(p, dur) <= HeadIdx(q, dur) < 20
    ensures HeadIdx(p, dur) == BackendProgressBar.HeadPosition(p, dur)
  {
    var hp, hq := BackendProgressBar.HeadPosition(p, dur), BackendProgressBar.HeadPosition(q, dur);
    assert hp == JavaDiv(20 * p, dur) && hq == JavaDiv(20 * q, dur);
    JavaDivMonotone(20 * p, 20 * q, dur);
  }

  /** The recorded index, -1 when none (getBarIdx). */
  function BarIdxOf<G(==)>(barIdx: map<G, int>, g: G): int {
    if g in barIdx then barIdx[g] else -1
  }

  /** The recorded edit time, 0 when none (getEditTs). */
  function EditTsOf<G(==)>(editTs: map<G, int>, g: G): int {
    if g in editTs then editTs[g] else 0
  }

  /** Whether a tick at time now records a new index for guild g. */
  predicate UpdatesAt<G(==)>(readings: map<G, Reading>, barIdx: map<G, int>, editTs: map<G, int>, now: int, g: G) {
    && g in readings
    && now - EditTsOf(editTs, g) >= ChooseInterval(readings[g].lengthMs)
    && HeadIdx(readings[g].positionMs, readings[g].lengthMs) != BarIdxOf(barIdx, g)
  }

  /** The guilds among guilds that a tick at time now updates. */
  function Updated<G(==)>(readings: map<G, Reading>, guilds: set<G>, barIdx: map<G, int>, editTs: map<G, int>, now: int): (u: set<G>)
    ensures u <= guilds
  {
    set g | g in guilds && UpdatesAt(readings, barIdx, editTs, now, g)
  }

  /** The recorded indices after a tick over guilds. */
  function NextBarIdx<G(==)>(readings: map<G, Reading>, guilds: set<G>, barIdx: map<G, int>, editTs: map<G, int>, now: int): map<G, int> {
    var u := Updated(readings, guilds, barIdx, editTs, now);
    map g | g in barIdx.Keys + u :: if g in u then HeadIdx(readings[g].positionMs, readings[g].lengthMs) else barIdx[g]
  }

  /** The recorded edit times after a tick over guilds. */
  function NextEditTs<G(==)>(readings: map<G, Reading>, guilds: set<G>, barIdx: map<G, int>, editTs: map<G, int>, now: int): map<G, int> {
    var u := Updated(readings, guilds, barIdx, editTs, now);
    map g | g in editTs.Keys + u :: if g in u then now else editTs[g]
  }

  /** Some guild of a set that is not empty, the next one a for-each over the set visits. */
  method SomeGuild<G>(guilds: set<G>) returns (g: G)
    requires guilds != {}
    ensures g in guilds
  {
    g :| g in guilds;
  }

  /** A tick over no guild changes nothing. */
  lemma NextNone<G>(readings: map<G, Reading>, barIdx: map<G, int>, editTs: map<G, int>, now: int)
    ensures NextBarIdx(readings, {}, barIdx, editTs, now) == barIdx
    ensures NextEditTs(readings, {}, barIdx, editTs, now) == editTs
  {
    assert Updated(readings, {}, barIdx, editTs, now) == {};
  }

  /** Processing one more guild g adds g to the updated guilds exactly when g is due. */
  lemma UpdatedStep<G>(readings: map<G, Reading>, done: set<G>, g: G, barIdx: map<G, int>, editTs: map<G, int>, now: int)
    ensures Updated(readings, done + {g}, barIdx, editTs, now)
      == Updated(readings, done, barIdx, editTs, now) + (if UpdatesAt(readings, barIdx, editTs, now, g) then {g} else {})
  {
  }

  /**
   * Processing one more guild g changes the bookkeeping of g alone, and
   * whether g is due does not depend on the guilds processed before it.
   */
  lemma NextStep<G>(readings: map<G, Reading>, done: set<G>, g: G, barIdx: map<G, int>, editTs: map<G, int>, now: int)
    requires g !in done
    ensures var b := NextBarIdx(readings, done, barIdx, editTs, now);
      var e := NextEditTs(readings, done, barIdx, editTs, now);
      && UpdatesAt(readings, b, e, now, g) == UpdatesAt(readings, barIdx, editTs, now, g)
      && NextBarIdx(readings, done + {g}, barIdx, editTs, now)
         == (if UpdatesAt(readings, b, e, now, g) then b[g := HeadIdx(readings[g].positionMs, readings[g].lengthMs)] else b)
      && NextEditTs(readings, done + {g}, barIdx, editTs, now)
         == (if UpdatesAt(readings, b, e, now, g) then e[g := now] else e)
  {
    var b := NextBarIdx(readings, done, barIdx, editTs, now);
    var e := NextEditTs(readings, done, barIdx, editTs, now);
    assert g !in Updated(readings, done, barIdx, editTs, now);
    assert BarIdxOf(b, g) == BarIdxOf(barIdx, g);
    assert EditTsOf(e, g) == EditTsOf(editTs, g);
    UpdatedStep(readings, done, g, barIdx, editTs, now);
    NextBarStep(readings, done, g, barIdx, editTs, now);
    NextEditStep(readings, done, g, barIdx, editTs, now);
  }

  lemma NextBarStep<G>(readings: map<G, Reading>, done: set<G>, g: G, barIdx: map<G, int>, editTs: map<G, int>, now: int)
    requires Updated(readings, done + {g}, barIdx, editTs, now)
      == Updated(readings, done, barIdx, editTs, now) + (if UpdatesAt(readings, barIdx, editTs, now, g) then {g} else {})
    ensures var b := NextBarIdx(readings, done, barIdx, editTs, now);
      NextBarIdx(readings, done + {g}, barIdx, editTs, now)
         == (if UpdatesAt(readings, barIdx, editTs, now, g) then b[g := HeadIdx(readings[g].positionMs, readings[g].lengthMs)] else b)
  {
    var b := NextBarIdx(readings, done, barIdx, editTs, now);
    var b' := NextBarIdx(readings, done + {g}, barIdx, editTs, now);
    var expected := if UpdatesAt(readings, barIdx, editTs, now, g) then b[g := HeadIdx(readings[g].positionMs, readings[g].lengthMs)] else b;
    assert b'.Keys == expected.Keys;
    forall k | k in b' ensures b'[k] == expected[k] {
    }
  }

  lemma NextEditStep<G>(readings: map<G, Reading>, done: set<G>, g: G, barIdx: map<G, int>, editTs: map<G, int>, now: int)
    requires Updated(readings, done + {g}, barIdx, editTs, now)
      == Updated(readings, done, barIdx, editTs, now) + (if UpdatesAt(readings, barIdx, editTs, now, g) then {g} else {})
    ensures var e := NextEditTs(readings, done, barIdx, editTs, now);
      NextEditTs(readings, done + {g}, barIdx, editTs, now)
         == (if UpdatesAt(readings, barIdx, editTs, now, g) then e[g := now] else e)
  {
    var e := NextEditTs(readings, done, barIdx, editTs, now);
    var e' := NextEditTs(readings, done + {g}, barIdx, editTs, now);
    var expected := if UpdatesAt(readings, barIdx, editTs, now, g) then e[g := now] else e;
    assert e'.Keys == expected.Keys;
    forall k | k in e' ensures e'[k] == expected[k] {
    }
  }

  /**
   * A second tick at the same instant changes nothing: every guild just
   * updated has an edit time of now, and every other guild kept the
   * bookkeeping that already held it back.
   */
  lemma TickIdempotent<G>(readings: map<G, Reading>, guilds: set<G>, barIdx: map<G, int>, editTs: map<G, int>, now: int)
    ensures var b := NextBarIdx(readings, guilds, barIdx, editTs, now);
      var e := NextEditTs(readings, guilds, barIdx, editTs, now);
      NextBarIdx(readings, guilds, b, e, now) == b && NextEditTs(readings, guilds, b, e, now) == e
  {
    var u := Updated(readings, guilds, barIdx, editTs, now);
    var b := NextBarIdx(readings, guilds, barIdx, editTs, now);
    var e := NextEditTs(readings, guilds, barIdx, editTs, now);
    forall g | g in guilds
      ensures !UpdatesAt(readings, b, e, now, g)
    {
      if g in u {
        assert EditTsOf(e, g) == now;
      } else {
        assert BarIdxOf(b, g) == BarIdxOf(barIdx, g) && EditTsOf(e, g) == EditTsOf(editTs, g);
      }
    }
    assert Updated(readings, guilds, b, e, now) == {};
  }

  /**
   * Once a guild is updated at time now, no tick before now + interval
   * updates it again, whatever it reads.
   */
  lemma UpdatesSpaced<G>(readings: map<G, Reading>, guilds: set<G>, barIdx: map<G, int>, editTs: map<G, int>, now: int,
                             later: map<G, Reading>, t: int, g: G)
    requires g in Updated(readings, guilds, barIdx, editTs, now)
    requires g in later && t < now + ChooseInterval(later[g].lengthMs)
    ensures !UpdatesAt(later, NextBarIdx(readings, guilds, barIdx, editTs, now), NextEditTs(readings, guilds, barIdx, editTs, now), t, g)
  {
    assert EditTsOf(NextEditTs(readings, guilds, barIdx, editTs, now), g) == now;
  }
}

/**
 * The src tree's ProgressBarScheduler.tick: it reads each guild's UI state
 * and position from the PlayerStateStore and updates the panel cache's bar
 * bookkeeping. It does not redraw anything itself.
 */
module SrcProgressBarScheduler {
  import opened Wrappers
  import opened Common
  import opened ProgressThrottle
  import PlayerStateStore
  import PanelCache

  /** What tick reads for a guild: a UI state that is PLAYING and a position. */
  function Readings(ui: map<int, PlayerStateStore.PlayerUIState>, positions: map<int, PlayerStateStore.PlayerPosition>): (r: map<int, Reading>)
    ensures forall g :: g in r <==> g in ui && ui[g].state == PLAYING && g in positions
    ensures forall g :: g in r ==> r[g] == Reading(positions[g].positionMs, positions[g].lengthMs)
  {
    map g | g in ui.Keys * positions.Keys && ui[g].state == PLAYING :: Reading(positions[g].positionMs, positions[g].lengthMs)
  }

  /** tick: every guild with a panel message, in any order. */
  method Tick(store: PlayerStateStore.StateStore, cache: PanelCache.PlayerPanelCache<int>, now: int)
    modifies cache
    ensures cache.messages == old(cache.messages) && cache.lastStatus == old(cache.lastStatus)
    ensures cache.lastBarIdx == NextBarIdx(Readings(store.currentUI, store.currentPosition), old(cache.messages).Keys, old(cache.lastBarIdx), old(cache.lastEditTs), now)
    ensures cache.lastEditTs == NextEditTs(Readings(store.currentUI, store.currentPosition), old(cache.messages).Keys, old(cache.lastBarIdx), old(cache.lastEditTs), now)
  {
    ghost var readings := Readings(store.currentUI, store.currentPosition);
    var guildIds := cache.GuildIds();
    var remaining := guildIds;
    ghost var done: set<int> := {};
    NextNone(readings, cache.lastBarIdx, cache.lastEditTs, now);
    while remaining != {}
      invariant remaining <= guildIds && done == guildIds - remaining
      invariant cache.messages == old(cache.messages) && cache.lastStatus == old(cache.lastStatus)
      invariant cache.lastBarIdx == NextBarIdx(readings, done, old(cache.lastBarIdx), old(cache.lastEditTs), now)
      invariant cache.lastEditTs == NextEditTs(readings, done, old(cache.lastBarIdx), old(cache.lastEditTs), now)
      decreases remaining
    {
      var guildId := SomeGuild(remaining);
      NextStep(readings, done, guildId, old(cache.lastBarIdx), old(cache.lastEditTs), now);
      TickGuild(store, cache, guildId, now, readings);
      remaining := remaining - {guildId};
      done := done + {guildId};
    }
    assert done == old(cache.messages).Keys;
  }

  /** The body of tick's loop, for one guild. */
  method TickGuild(store: PlayerStateStore.StateStore, cache: PanelCache.PlayerPanelCache<int>, guildId: int, now: int,
                   ghost readings: map<int, Reading>)
    requires readings == Readings(store.currentUI, store.currentPosition)
    modifies cache
    ensures cache.messages == old(cache.messages) && cache.lastStatus == old(cache.lastStatus)
    ensures var due := UpdatesAt(readings, old(cache.lastBarIdx), old(cache.lastEditTs), now, guildId);
      && cache.lastBarIdx == (if due then old(cache.lastBarIdx)[guildId := HeadIdx(readings[guildId].positionMs, readings[guildId].lengthMs)] else old(cache.lastBarIdx))
      && cache.lastEditTs == (if due then old(cache.lastEditTs)[guildId := now] else old(cache.lastEditTs))
  {
    var uiState := store.GetUI(guildId);
    var position := store.GetPosition(guildId);
    if uiState.Some? && uiState.value.state == PLAYING && position.Some? {
      var pos := position.value.positionMs;
      var dur := position.value.lengthMs;
      var prevHeadIdx := cache.GetBarIdx(guildId);
      var headIdx := HeadIdx(pos, dur);
      var prevEditTs := cache.GetEditTs(guildId);
      var minInt := ChooseInterval(dur);
      var intervalElapsed := now - prevEditTs >= minInt;
      if intervalElapsed && headIdx != prevHeadIdx {
        cache.SetBarIdx(guildId, headIdx);
        cache.SetEditTs(guildId, now);
      }
    }
  }
}

/**
 * The backend tree's ProgressBarScheduler.tick: the same rule over the
 * players of the registry, skipping tracks without a positive length, and
 * asking the panel gateway to redraw every guild it updates. Each guild's
 * player is fetched with getOrCreatePlayer, so a guild with a panel but no
 * cached player gets a new, STOPPED adapter, which the tick then skips.
 * The state is the adapter's own; the current item and the position, which
 * come from lavaplayer, are the snapshot `playerOf` gives for the guild.
 */
module BackendProgressBarScheduler {
  import opened Wrappers
  import opened Common
  import opened ProgressThrottle
  import opened Panel
  import PanelCache
  import LavalinkPlayback
  import LavalinkRegistry

  /** getCurrentItem().map(track().duration().toMillis()).orElse(0) */
  function Duration(player: PlayerSnapshot): int {
    if player.currentItem.Some? then player.currentItem.value.track.durationMillis else 0
  }

  /** The guilds whose cached player is PLAYING. */
  ghost function PlayingGuilds(players: map<string, LavalinkPlayback.LavalinkPlaybackAdapter>): (r: set<string>)
    reads set g | g in players :: players[g]
    ensures forall g :: g in r <==> g in players && players[g].state == PLAYING
  {
    set g | g in players && players[g].state == PLAYING
  }

  /**
   * What tick reads for a guild among guilds: a cached player that is
   * PLAYING (a guild of playing), whose current item has a positive length.
   * A player created by the tick itself is STOPPED and is never read.
   */
  function Readings(guilds: set<string>, playing: set<string>, playerOf: string -> PlayerSnapshot): (r: map<string, Reading>)
    ensures forall g :: g in r <==> g in guilds && g in playing && Duration(playerOf(g)) > 0
    ensures forall g :: g in r ==> r[g] == Reading(playerOf(g).trackPosition, Duration(playerOf(g)))
  {
    map g | g in guilds && g in playing && Duration(playerOf(g)) > 0 :: Reading(playerOf(g).trackPosition, Duration(playerOf(g)))
  }

  /** players keeps every entry of players0 and holds exactly its guilds and those of done. */
  ghost predicate Covers(players: map<string, LavalinkPlayback.LavalinkPlaybackAdapter>,
                         players0: map<string, LavalinkPlayback.LavalinkPlaybackAdapter>, done: set<string>)
  {
    && (forall g :: g in players <==> g in players0 || g in done)
    && (forall g :: g in players0 ==> g in players && players[g] == players0[g])
  }

  /** Every guild of done that players0 lacks has a STOPPED player in players. */
  ghost predicate CreatedStopped(players: map<string, LavalinkPlayback.LavalinkPlaybackAdapter>,
                                 players0: map<string, LavalinkPlayback.LavalinkPlaybackAdapter>, done: set<string>)
    reads set g | g in players :: players[g]
  {
    forall g :: g in done && g !in players0 ==> g in players && players[g].state == STOPPED
  }

  /**
   * What tick's loop keeps after visiting done: the registry holds the
   * players it began with plus a STOPPED one for each guild of done, and the
   * bookkeeping and the redrawn guilds are the throttle rule's over done.
   */
  ghost predicate TickInv(cache: PanelCache.PlayerPanelCache<string>, registry: LavalinkRegistry.LavalinkPlayerRegistry,
                          readings: map<string, Reading>, players0: map<string, LavalinkPlayback.LavalinkPlaybackAdapter>,
                          done: set<string>, barIdx0: map<string, int>, editTs0: map<string, int>, now: int, refreshed: set<string>)
    reads cache, registry, set g | g in registry.players :: registry.players[g]
  {
    && Covers(registry.players, players0, done)
    && CreatedStopped(registry.players, players0, done)
    && cache.lastBarIdx == NextBarIdx(readings, done, barIdx0, editTs0, now)
    && cache.lastEditTs == NextEditTs(readings, done, barIdx0, editTs0, now)
    && refreshed == Updated(readings, done, barIdx0, editTs0, now)
  }

  /** The registry after getOrCreatePlayer for every guild of guilds: each one lacking a player has a new STOPPED adapter. */
  twostate predicate PlayersCreated(registry: LavalinkRegistry.LavalinkPlayerRegistry, guilds: set<string>)
    reads registry, set g | g in registry.players :: registry.players[g]
  {
    && registry.players.Keys == old(registry.players).Keys + guilds
    && registry.destroyed == old(registry.destroyed)
    && (forall g :: g in old(registry.players) ==> registry.players[g] == old(registry.players)[g])
    && (forall g :: g in registry.players && g !in old(registry.players) ==>
         fresh(registry.players[g]) && registry.players[g].state == STOPPED)
  }

  /**
   * tick: every guild with a panel message, in any order; refreshed holds
   * the guilds whose panel the gateway is asked to redraw.
   */
  method Tick(cache: PanelCache.PlayerPanelCache<string>, registry: LavalinkRegistry.LavalinkPlayerRegistry,
              playerOf: string -> PlayerSnapshot, now: int) returns (refreshed: set<string>)
    modifies cache, registry
    ensures PlayersCreated(registry, old(cache.messages).Keys)
    ensures cache.messages == old(cache.messages) && cache.lastStatus == old(cache.lastStatus)
    ensures var readings := Readings(old(cache.messages).Keys, old(PlayingGuilds(registry.players)), playerOf);
      && cache.lastBarIdx == NextBarIdx(readings, old(cache.messages).Keys, old(cache.lastBarIdx), old(cache.lastEditTs), now)
      && cache.lastEditTs == NextEditTs(readings, old(cache.messages).Keys, old(cache.lastBarIdx), old(cache.lastEditTs), now)
      && refreshed == Updated(readings, old(cache.messages).Keys, old(cache.lastBarIdx), old(cache.lastEditTs), now)
  {
    var guildIds := cache.GuildIds();
    ghost var players0 := registry.players;
    ghost var playing := PlayingGuilds(players0);
    ghost var readings := Readings(guildIds, playing, playerOf);
    var done: set<string> := {};
    NextNone(readings, cache.lastBarIdx, cache.lastEditTs, now);
    refreshed := {};
    while done != guildIds
      invariant done <= guildIds
      invariant cache.messages == old(cache.messages) && cache.lastStatus == old(cache.lastStatus)
      invariant registry.destroyed == old(registry.destroyed)
      invariant TickInv(cache, registry, readings, players0, done, old(cache.lastBarIdx), old(cache.lastEditTs), now, refreshed)
      invariant forall g :: g in registry.players && g !in players0 ==> fresh(registry.players[g])
      decreases guildIds - done
    {
      var guildId := SomeGuild(guildIds - done);
      ghost var before := registry.players;
      refreshed := TickStep(cache, registry, playerOf, guildId, now, readings, players0, playing, done,
                            old(cache.lastBarIdx), old(cache.lastEditTs), refreshed);
      forall g | g in registry.players && g !in players0
        ensures fresh(registry.players[g])
      {
        if g != guildId {
          assert g in before && registry.players[g] == before[g];
        }
      }
      done := done + {guildId};
    }
    assert done == old(cache.messages).Keys;
  }

  /** One turn of tick's loop: the guild's body, with the loop's bookkeeping carried from done to done + {guildId}. */
  method TickStep(cache: PanelCache.PlayerPanelCache<string>, registry: LavalinkRegistry.LavalinkPlayerRegistry,
                  playerOf: string -> PlayerSnapshot, guildId: string, now: int,
                  ghost readings: map<string, Reading>, ghost players0: map<string, LavalinkPlayback.LavalinkPlaybackAdapter>,
                  ghost playing: set<string>, ghost done: set<string>, ghost barIdx0: map<string, int>, ghost editTs0: map<string, int>,
                  refreshed: set<string>)
      returns (refreshedNext: set<string>)
    requires guildId in cache.messages && guildId !in done
    requires TickInv(cache, registry, readings, players0, done, barIdx0, editTs0, now, refreshed)
    requires guildId in playing <==> guildId in players0 && players0[guildId].state == PLAYING
    requires readings == Readings(cache.messages.Keys, playing, playerOf)
    modifies cache, registry
    ensures TickInv(cache, registry, readings, players0, done + {guildId}, barIdx0, editTs0, now, refreshedNext)
    ensures forall g :: g in old(registry.players) ==> g in registry.players && registry.players[g] == old(registry.players)[g]
    ensures guildId !in old(registry.players) ==> fresh(registry.players[guildId])
    ensures forall g :: g in registry.players ==> g in old(registry.players) || g == guildId
    ensures registry.destroyed == old(registry.destroyed)
    ensures cache.messages == old(cache.messages) && cache.lastStatus == old(cache.lastStatus)
  {
    NextStep(readings, done, guildId, barIdx0, editTs0, now);
    UpdatedStep(readings, done, guildId, barIdx0, editTs0, now);
    var redrawn := TickGuild(cache, registry, playerOf, guildId, now, readings, players0, playing, done);
    refreshedNext := if redrawn then refreshed + {guildId} else refreshed;
  }

  /**
   * The body of tick's loop, for one guild; redrawn tells whether the
   * gateway is asked to redraw its panel. players0 is the registry's map
   * when the tick began, and playing the guilds whose player was PLAYING then.
   */
  method TickGuild(cache: PanelCache.PlayerPanelCache<string>, registry: LavalinkRegistry.LavalinkPlayerRegistry,
                   playerOf: string -> PlayerSnapshot, guildId: string, now: int,
                   ghost readings: map<string, Reading>, ghost players0: map<string, LavalinkPlayback.LavalinkPlaybackAdapter>,
                   ghost playing: set<string>, ghost done: set<string>)
      returns (redrawn: bool)
    requires guildId in cache.messages && guildId !in done
    requires Covers(registry.players, players0, done) && CreatedStopped(registry.players, players0, done)
    requires guildId in playing <==> guildId in players0 && players0[guildId].state == PLAYING
    requires forall g :: g in readings <==> g in cache.messages && g in playing && Duration(playerOf(g)) > 0
    requires forall g :: g in readings ==> readings[g] == Reading(playerOf(g).trackPosition, Duration(playerOf(g)))
    modifies cache, registry
    ensures Covers(registry.players, players0, done + {guildId}) && CreatedStopped(registry.players, players0, done + {guildId})
    ensures guildId in registry.players && registry.destroyed == old(registry.destroyed)
    ensures guildId in old(registry.players) ==> registry.players == old(registry.players)
    ensures guildId !in old(registry.players) ==>
      && fresh(registry.players[guildId]) && registry.players[guildId].state == STOPPED
      && registry.players == old(registry.players)[guildId := registry.players[guildId]]
    ensures cache.messages == old(cache.messages) && cache.lastStatus == old(cache.lastStatus)
    ensures var due := UpdatesAt(readings, old(cache.lastBarIdx), old(cache.lastEditTs), now, guildId);
      && redrawn == due
      && cache.lastBarIdx == (if due then old(cache.lastBarIdx)[guildId := HeadIdx(readings[guildId].positionMs, readings[guildId].lengthMs)] else old(cache.lastBarIdx))
      && cache.lastEditTs == (if due then old(cache.lastEditTs)[guildId := now] else old(cache.lastEditTs))
  {
    redrawn := false;
    var playingNow := FetchPlayer(registry, guildId, players0, playing, done);
    assert cache.lastBarIdx == old(cache.lastBarIdx) && cache.lastEditTs == old(cache.lastEditTs);
    assert playingNow && Duration(playerOf(guildId)) > 0 <==> guildId in readings;
    var player := playerOf(guildId);
    var dur := Duration(player);
    if playingNow && dur > 0 {
      var pos := player.trackPosition;
      var prevHeadIdx := cache.GetBarIdx(guildId);
      var headIdx := HeadIdx(pos, dur);
      var prevEditTs := cache.GetEditTs(guildId);
      var minInt := ChooseInterval(dur);
      var intervalElapsed := now - prevEditTs >= minInt;
      if intervalElapsed && headIdx != prevHeadIdx {
        cache.SetBarIdx(guildId, headIdx);
        cache.SetEditTs(guildId, now);
        var ref := cache.GetMessage(guildId);
        if ref.Some? {
          redrawn := true;
        }
      }
    }
  }

  /**
   * registry.getOrCreatePlayer(new Session(guildId)).getState() == PLAYING:
   * a cached player answers with its own state; a created one is STOPPED.
   */
  method FetchPlayer(registry: LavalinkRegistry.LavalinkPlayerRegistry, guildId: string,
                     ghost players0: map<string, LavalinkPlayback.LavalinkPlaybackAdapter>, ghost playing: set<string>,
                     ghost done: set<string>)
      returns (playingNow: bool)
    requires guildId !in done && Covers(registry.players, players0, done) && CreatedStopped(registry.players, players0, done)
    requires guildId in playing <==> guildId in players0 && players0[guildId].state == PLAYING
    modifies registry
    ensures playingNow <==> guildId in playing
    ensures Covers(registry.players, players0, done + {guildId}) && CreatedStopped(registry.players, players0, done + {guildId})
    ensures guildId in registry.players && registry.destroyed == old(registry.destroyed)
    ensures guildId in old(registry.players) ==> registry.players == old(registry.players)
    ensures guildId !in old(registry.players) ==>
      && fresh(registry.players[guildId]) && registry.players[guildId].state == STOPPED
      && registry.players == old(registry.players)[guildId := registry.players[guildId]]
  {
    var p := registry.GetOrCreatePlayer(guildId);
    var state := p.GetState();
    playingNow := state == PLAYING;
  }
}

/**
 * The src tree's PlayerRegistry: exactly one cached Player per guild,
 * created on first use. Destroying the guild's Lavalink link is not modelled.
 */
module SrcPlayerRegistry {
  import opened SrcPlayer
  import Store = PlayerStateStore

  class PlayerRegistry {
    var players: map<int, Player>
    const playerStateStore: Store.StateStore

    /** Every cached player belongs to the guild it is cached under and publishes to the shared store. */
    ghost predicate Valid()
      reads this
    {
      forall g :: g in players ==> players[g].guildId == g && players[g].stateStore == playerStateStore
    }

    constructor(playerStateStore: Store.StateStore)
      ensures Valid()
      ensures players == map[] && this.playerStateStore == playerStateStore
    {
      players := map[];
      this.playerStateStore := playerStateStore;
    }

    /**
     * getOrCreate: the cached player of the guild; when there is none, a new
     * player on an empty queue is created and cached, and only then.
     */
    method GetOrCreate(guildId: int) returns (p: Player)
      requires Valid()
      modifies this, playerStateStore
      ensures Valid()
      ensures guildId in players && players[guildId] == p
      ensures p.guildId == guildId && p.stateStore == playerStateStore
      ensures guildId in old(players) ==>
        p == old(players)[guildId] && players == old(players)
        && playerStateStore.currentUI == old(playerStateStore.currentUI)
        && playerStateStore.currentPosition == old(playerStateStore.currentPosition)
      ensures guildId !in old(players) ==>
        && fresh(p) && fresh(p.trackScheduler) && players == old(players)[guildId := p]
        && p.Valid() && p.guildId == guildId && p.stateStore == playerStateStore
        && p.trackScheduler.tracks == [] && p.state.STOPPED?
        && playerStateStore.currentUI == old(playerStateStore.currentUI)[guildId := p.UISnapshot()]
        && playerStateStore.currentPosition == old(playerStateStore.currentPosition)[guildId := p.PositionSnapshot()]
    {
      if guildId in players {
        return players[guildId];
      }
      p := new Player(guildId, playerStateStore);
      players := players[guildId := p];
    }

    /** destroy: forget the guild's player; every other guild keeps its own. */
    method Destroy(guildId: int)
      requires Valid()
      modifies this
      ensures Valid()
      ensures players == old(players) - {guildId}
      ensures guildId !in players
      ensures forall g :: g in old(players) && g != guildId ==> g in players && players[g] == old(players)[g]
    {
      players := players - {guildId};
    }
  }
}

/**
 * The backend's LavalinkPlayerRegistry: one LavalinkPlaybackAdapter per
 * session, keyed by the session id alone. Destroying the underlying
 * lavaplayer player on removal is recorded in `destroyed`.
 */
module LavalinkRegistry {
  import opened Common
  import opened LavalinkPlayback

  class LavalinkPlayerRegistry {
    var players: map<string, LavalinkPlaybackAdapter>
    var destroyed: seq<LavalinkPlaybackAdapter>

    constructor()
      ensures players == map[] && destroyed == []
    {
      players := map[];
      destroyed := [];
    }

    /**
     * getOrCreatePlayer: the adapter cached under the session id; when there
     * is none, a new STOPPED adapter with an empty scheduler is cached.
     */
    method GetOrCreatePlayer(sessionId: string) returns (p: LavalinkPlaybackAdapter)
      modifies this
      ensures sessionId in players && players[sessionId] == p && destroyed == old(destroyed)
      ensures sessionId in old(players) ==> p == old(players)[sessionId] && players == old(players)
      ensures sessionId !in old(players) ==>
        && fresh(p) && fresh(p.scheduler) && players == old(players)[sessionId := p]
        && p.Valid() && p.state == PlayerState.STOPPED && p.Items() == [] && p.Cursor() == -1
    {
      if sessionId in players {
        return players[sessionId];
      }
      p := new LavalinkPlaybackAdapter();
      players := players[sessionId := p];
    }

    /** removePlayer: forget the session's adapter and destroy its lavaplayer; an absent id changes nothing. */
    method RemovePlayer(sessionId: string)
      modifies this
      ensures players == old(players) - {sessionId}
      ensures sessionId in old(players) ==> destroyed == old(destroyed) + [old(players)[sessionId]]
      ensures sessionId !in old(players) ==> players == old(players) && destroyed == old(destroyed)
    {
      if sessionId in players {
        destroyed := destroyed + [players[sessionId]];
      }
      players := players - {sessionId};
    }
  }
}

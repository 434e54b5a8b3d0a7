/**
 * The src tree's PlayerStateStore: the latest UI snapshot and the latest
 * position published for each guild, kept in two maps keyed by guild id.
 * The reactive sinks that also receive every update are not modelled.
 */
module PlayerStateStore {
  import opened Wrappers
  import opened Common
  import opened LavalinkClient

  /** PlayerUIState: what a player publishes for its panel. */
  datatype PlayerUIState = PlayerUIState(
    guildId: int,
    state: PlayerState,
    volume: int,
    repeat: bool,
    currentTrack: Option<Track>,
    queue: seq<Track>,
    history: seq<Track>)

  /** PlayerPosition: the playback position and the length of the current track. */
  datatype PlayerPosition = PlayerPosition(guildId: int, positionMs: int, lengthMs: int)

  class StateStore {
    var currentUI: map<int, PlayerUIState>
    var currentPosition: map<int, PlayerPosition>

    constructor()
      ensures currentUI == map[] && currentPosition == map[]
    {
      currentUI := map[];
      currentPosition := map[];
    }

    /** getUI: the last UI state set for the guild, or null (None) when none was set. */
    method GetUI(guildId: int) returns (r: Option<PlayerUIState>)
      ensures r.Some? <==> guildId in currentUI
      ensures r.Some? ==> r.value == currentUI[guildId]
    {
      if guildId in currentUI {
        return Some(currentUI[guildId]);
      }
      return None;
    }

    /** getPosition: the last position set for the guild, or null (None). */
    method GetPosition(guildId: int) returns (r: Option<PlayerPosition>)
      ensures r.Some? <==> guildId in currentPosition
      ensures r.Some? ==> r.value == currentPosition[guildId]
    {
      if guildId in currentPosition {
        return Some(currentPosition[guildId]);
      }
      return None;
    }

    /** setUIState: record the state under its own guild id; positions are untouched. */
    method SetUIState(uiState: PlayerUIState)
      modifies this
      ensures currentUI == old(currentUI)[uiState.guildId := uiState]
      ensures currentPosition == old(currentPosition)
    {
      currentUI := currentUI[uiState.guildId := uiState];
    }

    /** setPosition: record the position under its own guild id; UI states are untouched. */
    method SetPosition(position: PlayerPosition)
      modifies this
      ensures currentPosition == old(currentPosition)[position.guildId := position]
      ensures currentUI == old(currentUI)
    {
      currentPosition := currentPosition[position.guildId := position];
    }
  }
}

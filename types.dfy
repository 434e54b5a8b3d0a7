/** The four player states shared by every player of the bot. */
module Common {
  datatype PlayerState = PLAYING | PAUSED | STOPPED | LOADING
  {
    /** Enum.name() */
    function Name(): (n: string)
      ensures n == "PLAYING" <==> this == PLAYING
    {
      match this
      case PLAYING => "PLAYING"
      case PAUSED => "PAUSED"
      case STOPPED => "STOPPED"
      case LOADING => "LOADING"
    }
  }
}

/**
 * The values the src tree receives from the Lavalink client library: a
 * track with its info and the user data attached to it when it was queued.
 */
module LavalinkClient {
  /** A value of a JSON user-data object, as far as JsonNode.asText sees it. */
  datatype JsonValue = JText(text: string) | JNumber(n: int) | JBool(b: bool) | JNull | JContainer

  /** A value of a Map user-data object: a String, null, or some other object. */
  datatype MapValue = MString(s: string) | MNull | MOther

  /** Track.getUserData(): null, a JSON object, a Map, or any other object. */
  datatype UserData =
    | NoUserData
    | Json(fields: map<string, JsonValue>)
    | StringMap(entries: map<string, MapValue>)
    | OtherObject

  /** A Lavalink track: the fields of its TrackInfo that the bot reads, and its user data. */
  datatype Track = Track(
    identifier: string,
    title: string,
    author: string,
    uri: string,
    artworkUrl: string,
    length: int,
    userData: UserData)
}

/** The lavaplayer values the backend tree works with. */
module Lavaplayer {
  /** A loaded audio track, reduced to its AudioTrackInfo. */
  datatype AudioTrack = AudioTrack(identifier: string, title: string, author: string, length: int, uri: string)

  /** An AudioPlaylist: its tracks and whether it is the result of a search. */
  datatype AudioPlaylist = AudioPlaylist(name: string, tracks: seq<AudioTrack>, isSearchResult: bool)

  /** AudioTrackEndReason; the Lavalink protocol's reason enum has the same five constants. */
  datatype EndReason = FINISHED | LOAD_FAILED | STOPPED | REPLACED | CLEANUP
  {
    /** The enum's mayStartNext flag. */
    predicate MayStartNext() {
      this == FINISHED || this == LOAD_FAILED
    }
  }

  /** A call a backend player makes on the lavaplayer side: stopTrack, loadItem or playTrack. */
  datatype Call = StopTrack | LoadItem(identifier: string) | PlayTrack(track: AudioTrack)
}

/** The backend tree's domain records and the outcomes its players report. */
module BackendModel {
  import opened Wrappers
  import Common

  /** A playable track: identifier, display data, duration in milliseconds, source and thumbnail. */
  datatype Track = Track(
    identifier: string,
    title: string,
    author: string,
    durationMillis: int,
    sourceUrl: string,
    thumbnailUrl: Option<string>)

  /** An entry of a player's queue. */
  datatype QueueItem = QueueItem(track: Track)

  /**
   * The outcome codes the backend players return. REPEATED, REPEAT_ENABLED,
   * REPEAT_DISABLED and SHUFFLED are used by LavaLinkAudioPlayer but are not
   * declared in the enum file.
   */
  datatype PlayerOutcome =
    | ADDED_TO_QUEUE | PLAYING_NOW
    | SKIPPED | NO_NEXT_TRACK
    | PLAYING_PREVIOUS | NO_PREVIOUS_TRACK
    | PAUSED | ALREADY_PAUSED | RESUMED | ALREADY_PLAYING
    | STOPPED | ALREADY_STOPPED | QUEUE_CLEARED | QUEUE_EMPTY
    | ERROR
    | REPEATED | REPEAT_ENABLED | REPEAT_DISABLED | SHUFFLED

  /** What a PlayerOutcomeListener is told: the player's state at that moment and the outcome. */
  datatype Notice = Notice(state: Common.PlayerState, outcome: PlayerOutcome)
}

/**
 * The src tree's PlayerView record and PlayerViewMapper: the read-only view
 * the panel renderers draw from, built from a published PlayerUIState and the
 * last position. Requester details come from the user data attached to each
 * track when it was queued.
 */
module PlayerViewMapper {
  import opened Wrappers
  import opened JavaText
  import opened LavalinkClient
  import Store = PlayerStateStore

  /** Who queued a track; each field is absent or non-blank. */
  datatype RequesterView = RequesterView(userId: Option<string>, displayName: Option<string>, avatarUrl: Option<string>)

  datatype TrackView = TrackView(
    identifier: string,
    title: string,
    author: string,
    uri: string,
    artworkUrl: string,
    lengthMillis: int,
    requestedBy: Option<RequesterView>)

  datatype PlayerView = PlayerView(
    guildId: int,
    state: string,
    positionMillis: int,
    repeatEnabled: bool,
    volume: int,
    currentTrack: Option<TrackView>,
    queue: seq<TrackView>,
    history: seq<TrackView>)

  /** nullIfBlank: absent exactly for an absent or blank value, otherwise the value itself. */
  function NullIfBlank(value: Option<string>): (r: Option<string>)
    ensures r.None? <==> value.None? || IsBlank(value.value)
    ensures r.Some? ==> r == value
  {
    if value.None? || IsBlank(value.value) then None else value
  }

  /** JsonNode.path(key).asText(null): text as is, a number or boolean printed, a container as "", null or a missing key as null. */
  function JsonText(fields: map<string, JsonValue>, key: string): (r: Option<string>)
    ensures key !in fields ==> r.None?
  {
    if key !in fields then None
    else match fields[key]
      case JText(t) => Some(t)
      case JNumber(n) => Some(IntToString(n))
      case JBool(b) => Some(if b then "true" else "false")
      case JNull => None
      case JContainer => Some("")
  }

  /** A map entry read as a String, or ClassCast when the entry is some other object. */
  datatype MapRead = Read(value: Option<string>) | ClassCast

  function MapText(entries: map<string, MapValue>, key: string): (r: MapRead)
    ensures r.ClassCast? <==> key in entries && entries[key].MOther?
  {
    if key !in entries then Read(None)
    else match entries[key]
      case MString(s) => Read(Some(s))
      case MNull => Read(None)
      case MOther => ClassCast
  }

  /** A requester from three normalised fields, or none when all three are absent. */
  function RequesterOf(userId: Option<string>, displayName: Option<string>, avatarUrl: Option<string>): Option<RequesterView> {
    var u, d, a := NullIfBlank(userId), NullIfBlank(displayName), NullIfBlank(avatarUrl);
    if u.Some? || d.Some? || a.Some? then Some(RequesterView(u, d, a)) else None
  }

  /**
   * extractRequesterFromUserData: for JSON or a Map, the userId, displayName
   * and avatarUrl fields with blanks normalised away, present when any of
   * them is; nothing for null, for any other object, and for a Map holding a
   * non-String under one of the three keys.
   */
  function ExtractRequester(userData: UserData): (r: Option<RequesterView>)
    ensures userData.NoUserData? || userData.OtherObject? ==> r.None?
    ensures r.Some? ==>
      && (r.value.userId.None? || !IsBlank(r.value.userId.value))
      && (r.value.displayName.None? || !IsBlank(r.value.displayName.value))
      && (r.value.avatarUrl.None? || !IsBlank(r.value.avatarUrl.value))
      && (r.value.userId.Some? || r.value.displayName.Some? || r.value.avatarUrl.Some?)
    ensures userData.Json? ==>
      r == RequesterOf(JsonText(userData.fields, "userId"), JsonText(userData.fields, "displayName"), JsonText(userData.fields, "avatarUrl"))
    ensures userData.StringMap? && (exists k :: k in ["userId", "displayName", "avatarUrl"] && MapText(userData.entries, k).ClassCast?) ==> r.None?
  {
    match userData
    case NoUserData => None
    case OtherObject => None
    case Json(fields) =>
      RequesterOf(JsonText(fields, "userId"), JsonText(fields, "displayName"), JsonText(fields, "avatarUrl"))
    case StringMap(entries) =>
      var u, d, a := MapText(entries, "userId"), MapText(entries, "displayName"), MapText(entries, "avatarUrl");
      if u.ClassCast? || d.ClassCast? || a.ClassCast? then None
      else RequesterOf(u.value, d.value, a.value)
  }

  /** A JSON payload whose three fields are all missing, null or blank text names no requester. */
  lemma BlankJsonHasNoRequester(fields: map<string, JsonValue>)
    requires forall k :: k in fields && (k == "userId" || k == "displayName" || k == "avatarUrl") ==>
      fields[k].JNull? || fields[k].JContainer? || (fields[k].JText? && IsBlank(fields[k].text))
    ensures ExtractRequester(Json(fields)).None?
  {
    assert NullIfBlank(JsonText(fields, "userId")).None?;
    assert NullIfBlank(JsonText(fields, "displayName")).None?;
    assert NullIfBlank(JsonText(fields, "avatarUrl")).None?;
  }

  /** toTrackView: the track's info fields copied, and its requester extracted. */
  function ToTrackView(t: Track): (v: TrackView)
    ensures v.identifier == t.identifier && v.title == t.title && v.lengthMillis == t.length
    ensures v.requestedBy == ExtractRequester(t.userData)
  {
    TrackView(t.identifier, t.title, t.author, t.uri, t.artworkUrl, t.length, ExtractRequester(t.userData))
  }

  /** The track views of a list of tracks, in the same order. */
  function TrackViews(ts: seq<Track>): (vs: seq<TrackView>)
    ensures |vs| == |ts|
    ensures forall k :: 0 <= k < |ts| ==> vs[k] == ToTrackView(ts[k])
  {
    if ts == [] then [] else [ToTrackView(ts[0])] + TrackViews(ts[1..])
  }

  /**
   * toView: guild, state name, repeat and volume copied; the position, or 0
   * with no position; the current track's view, present iff there is one;
   * queue and history views of the same length and order.
   */
  function ToView(uiState: Store.PlayerUIState, position: Option<Store.PlayerPosition>): (v: PlayerView)
    ensures v.guildId == uiState.guildId && v.state == uiState.state.Name()
    ensures v.repeatEnabled == uiState.repeat && v.volume == uiState.volume
    ensures v.positionMillis == (if position.Some? then position.value.positionMs else 0)
    ensures v.currentTrack.Some? <==> uiState.currentTrack.Some?
    ensures v.currentTrack.Some? ==> v.currentTrack.value == ToTrackView(uiState.currentTrack.value)
    ensures |v.queue| == |uiState.queue| && |v.history| == |uiState.history|
    ensures forall k :: 0 <= k < |v.queue| ==> v.queue[k].identifier == uiState.queue[k].identifier
    ensures forall k :: 0 <= k < |v.history| ==> v.history[k].identifier == uiState.history[k].identifier
  {
    PlayerView(
      uiState.guildId,
      uiState.state.Name(),
      if position.Some? then position.value.positionMs else 0,
      uiState.repeat,
      uiState.volume,
      if uiState.currentTrack.Some? then Some(ToTrackView(uiState.currentTrack.value)) else None,
      TrackViews(uiState.queue),
      TrackViews(uiState.history))
  }
}

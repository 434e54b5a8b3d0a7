/**
 * The src tree's TrackQueryService: how a user's query becomes the
 * identifier handed to the Lavalink node, and how the node's load result
 * becomes one track (play) or a list of tracks (search). The node itself is
 * not modelled: its load result is an input.
 */
module TrackQueryService {
  import opened Wrappers
  import opened JavaText
  import opened LavalinkClient

  /** The Lavalink client's load results. */
  datatype LoadResult =
    | TrackLoaded(track: Track)
    | PlaylistLoaded(tracks: seq<Track>)
    | SearchResult(tracks: seq<Track>)
    | NoMatches
    | LoadFailed(message: string)

  /** The exceptions the service raises or emits. */
  datatype Failure =
    | IllegalArgument(message: string)
    | IllegalState(message: string)
    | NoSuchElement
    | UnexpectedLoadResult

  datatype Result<T> = Ok(value: T) | Err(failure: Failure)

  const SearchPrefixes: seq<string> := ["ytsearch:", "ytmsearch:", "scsearch:", "spsearch:"]
  const Schemes: seq<string> := ["", "http://", "https://"]
  const WwwParts: seq<string> := ["", "www."]
  const Hosts: seq<string> :=
    ["youtube.com", "youtu.be", "spotify.com", "soundcloud.com", "bandcamp.com", "deezer.com", "open.spotify.com"]

  /** isSearchQuery: the query starts with one of the four search prefixes. */
  predicate IsSearchQuery(query: string) {
    exists i :: 0 <= i < |SearchPrefixes| && StartsWith(query, SearchPrefixes[i])
  }

  /** The characters that a regex `.` does not match. */
  predicate IsLineTerminator(c: char) {
    c == '\n' || c == '\r' || c == '\U{85}' || c == '\U{2028}' || c == '\U{2029}'
  }

  predicate NoLineTerminator(s: string) {
    forall k :: 0 <= k < |s| ==> !IsLineTerminator(s[k])
  }

  /**
   * isDirectUrl: the whole query, compared without regard to ASCII case,
   * matches an optional scheme, an optional "www." and one of the seven hosts,
   * followed by anything but a line terminator.
   */
  predicate IsDirectUrl(query: string) {
    var lower := ToLowerAscii(query);
    exists s, w, h ::
      && 0 <= s < |Schemes| && 0 <= w < |WwwParts| && 0 <= h < |Hosts|
      && StartsWith(lower, Schemes[s] + WwwParts[w] + Hosts[h])
      && NoLineTerminator(lower[|Schemes[s] + WwwParts[w] + Hosts[h]|..])
  }

  /**
   * processQuery: a missing or all-trimmable query is refused; a trimmed
   * query that is already a search query or a direct URL is kept; anything
   * else becomes a YouTube search for the trimmed text.
   */
  function ProcessQuery(query: Option<string>): (r: Result<string>)
    ensures r.Err? <==> query.None? || Trim(query.value) == []
    ensures r.Err? ==> r.failure == IllegalArgument("Query cannot be null or empty")
    ensures r.Ok? ==> IsSearchQuery(r.value) || IsDirectUrl(r.value)
    ensures r.Ok? ==>
      && (IsSearchQuery(Trim(query.value)) || IsDirectUrl(Trim(query.value)) ==> r.value == Trim(query.value))
      && (!IsSearchQuery(Trim(query.value)) && !IsDirectUrl(Trim(query.value)) ==> r.value == "ytsearch:" + Trim(query.value))
  {
    if query.None? || Trim(query.value) == [] then
      Err(IllegalArgument("Query cannot be null or empty"))
    else
      var trimmed := Trim(query.value);
      if IsSearchQuery(trimmed) || IsDirectUrl(trimmed) then
        Ok(trimmed)
      else
        assert StartsWith("ytsearch:" + trimmed, SearchPrefixes[0]);
        Ok("ytsearch:" + trimmed)
  }

  /** Processing an already processed query gives it back unchanged. */
  lemma ProcessQueryIdempotent(query: Option<string>)
    requires ProcessQuery(query).Ok?
    ensures ProcessQuery(Some(ProcessQuery(query).value)) == ProcessQuery(query)
  {
    var t := Trim(query.value);
    var r := ProcessQuery(query).value;
    if r == t {
      TrimKept(t);
    } else {
      assert r == "ytsearch:" + t;
      assert r[|r| - 1] == t[|t| - 1];
      TrimKept(r);
      assert StartsWith(r, SearchPrefixes[0]);
    }
  }

  /** The tracks a load result carries, in order. */
  function Candidates(loadResult: LoadResult): (ts: seq<Track>)
    ensures loadResult.NoMatches? || loadResult.LoadFailed? ==> ts == []
  {
    match loadResult
    case TrackLoaded(track) => [track]
    case PlaylistLoaded(tracks) => tracks
    case SearchResult(tracks) => tracks
    case NoMatches => []
    case LoadFailed(_) => []
  }

  /**
   * firstTrack: the first candidate. A playlist of more than 50 tracks is
   * matched by no case and fails as an unexpected result; an empty playlist
   * fails when its first track is taken; an empty search fails with "No
   * results for query"; no match and a failed load fail with their messages.
   */
  function FirstTrack(loadResult: LoadResult): (r: Result<Track>)
    ensures r.Ok? <==> Candidates(loadResult) != [] && !(loadResult.PlaylistLoaded? && |loadResult.tracks| > 50)
    ensures r.Ok? ==> r.value == Candidates(loadResult)[0]
    ensures loadResult.PlaylistLoaded? && |loadResult.tracks| > 50 ==> r == Err(UnexpectedLoadResult)
    ensures loadResult.PlaylistLoaded? && loadResult.tracks == [] ==> r == Err(NoSuchElement)
    ensures loadResult.SearchResult? && loadResult.tracks == [] ==> r == Err(IllegalArgument("No results for query"))
    ensures loadResult.NoMatches? ==> r == Err(IllegalArgument("Nothing found for query"))
    ensures loadResult.LoadFailed? ==> r == Err(IllegalState("Failed to load track: " + loadResult.message))
  {
    match loadResult
    case TrackLoaded(track) => Ok(track)
    case PlaylistLoaded(tracks) =>
      if |tracks| > 50 then Err(UnexpectedLoadResult)
      else if tracks == [] then Err(NoSuchElement)
      else Ok(tracks[0])
    case SearchResult(tracks) =>
      if tracks == [] then Err(IllegalArgument("No results for query")) else Ok(tracks[0])
    case NoMatches => Err(IllegalArgument("Nothing found for query"))
    case LoadFailed(message) => Err(IllegalState("Failed to load track: " + message))
  }

  /** Stream.limit: at most n leading elements; a negative n is refused. */
  function Limit(ts: seq<Track>, n: int): (r: Result<seq<Track>>)
    ensures r.Err? <==> n < 0
    ensures r.Ok? ==> |r.value| == (if |ts| < n then |ts| else n) && r.value == ts[..|r.value|]
  {
    if n < 0 then Err(IllegalArgument(IntToString(n)))
    else if |ts| <= n then Ok(ts) else Ok(ts[..n])
  }

  /**
   * searchResults: a loaded track gives a one-element list whatever the
   * limit; a playlist or a non-empty search gives its first `limit` tracks in
   * order; an empty search, no match and a failed load fail.
   */
  function SearchResults(loadResult: LoadResult, limit: int): (r: Result<seq<Track>>)
    ensures loadResult.TrackLoaded? ==> r == Ok([loadResult.track])
    ensures !loadResult.TrackLoaded? && r.Ok? ==>
      && |r.value| <= limit && |r.value| <= |Candidates(loadResult)|
      && r.value == Candidates(loadResult)[..|r.value|]
      && (|r.value| == limit || r.value == Candidates(loadResult))
    ensures r.Ok? <==> loadResult.TrackLoaded? || (loadResult.PlaylistLoaded? && limit >= 0)
                       || (loadResult.SearchResult? && loadResult.tracks != [] && limit >= 0)
    ensures loadResult.SearchResult? && loadResult.tracks == [] ==> r == Err(IllegalArgument("No results for query"))
    ensures loadResult.NoMatches? ==> r == Err(IllegalArgument("Nothing found for query"))
    ensures loadResult.LoadFailed? ==> r == Err(IllegalState("Failed to load track: " + loadResult.message))
  {
    match loadResult
    case TrackLoaded(track) => Ok([track])
    case PlaylistLoaded(tracks) => Limit(tracks, limit)
    case SearchResult(tracks) =>
      if tracks == [] then Err(IllegalArgument("No results for query")) else Limit(tracks, limit)
    case NoMatches => Err(IllegalArgument("Nothing found for query"))
    case LoadFailed(message) => Err(IllegalState("Failed to load track: " + message))
  }

  /** Play and search agree: when both succeed with room for one track, the track played heads the search list. */
  lemma FirstTrackHeadsSearchResults(loadResult: LoadResult, limit: int)
    requires FirstTrack(loadResult).Ok? && limit >= 1
    ensures SearchResults(loadResult, limit).Ok?
    ensures |SearchResults(loadResult, limit).value| >= 1
    ensures SearchResults(loadResult, limit).value[0] == FirstTrack(loadResult).value
  {
    var r := SearchResults(loadResult, limit).value;
    if !loadResult.TrackLoaded? {
      assert |r| >= 1;
      assert r[0] == Candidates(loadResult)[..|r|][0];
    }
  }
}

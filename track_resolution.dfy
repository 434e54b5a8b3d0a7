/**
 * The backend's track resolution: the YouTube resolvers (the newer
 * YouTubeResolverPort, which derives a thumbnail, and the older
 * YouTubeResolver, which leaves it empty) and the AudioSourceManager that
 * picks the first resolver accepting a query. Both trees carry an identical
 * AudioSourceManager; ResolveTrack models both. What lavaplayer's
 * loadItem reports for an identifier is an input.
 */
module TrackResolution {
  import opened Wrappers
  import opened JavaText
  import opened Lavaplayer
  import opened BackendModel

  /** What the resolver's load handler is told, or that it is never told anything. */
  datatype LoadOutcome =
    | Loaded(track: AudioTrack)
    | PlaylistLoaded(playlist: AudioPlaylist)
    | NoMatches
    | LoadFailed(message: string)
    | NoAnswer

  /** The exceptions resolution raises: UnresolvableTrackException is a TrackLoadException. */
  datatype ResolveError =
    | Unresolvable(message: string)
    | LoadError(message: string)
    | TimedOut

  datatype Resolution = Resolved(track: Track) | Failed(error: ResolveError)

  /** canResolve: every query except one mentioning spotify.com. */
  predicate CanResolve(query: string) {
    !Contains(query, "spotify.com")
  }

  /** The identifier handed to loadItem: a query starting with "http" as is, anything else as a YouTube search. */
  function LoadIdentifier(query: string): (id: string)
    ensures StartsWith(query, "http") ==> id == query
    ensures !StartsWith(query, "http") ==> |id| == |query| + 9 && StartsWith(id, "ytsearch:") && id[9..] == query
  {
    if StartsWith(query, "http") then query else "ytsearch:" + query
  }

  /** deriveYoutubeThumb: the hqdefault image for a YouTube URI, nothing for another URI or a missing id. */
  function DeriveYoutubeThumb(id: Option<string>, uri: string): (thumb: Option<string>)
    ensures thumb.Some? <==> id.Some? && (Contains(uri, "youtube.com") || Contains(uri, "youtu.be"))
    ensures thumb.Some? ==> thumb.value == "https://img.youtube.com/vi/" + id.value + "/hqdefault.jpg"
  {
    if id.None? then None
    else if Contains(uri, "youtube.com") || Contains(uri, "youtu.be") then
      Some("https://img.youtube.com/vi/" + id.value + "/hqdefault.jpg")
    else None
  }

  /** The domain Track built from a loaded track: the URI serves as both identifier and source. */
  function ToTrack(t: AudioTrack, deriveThumb: bool): (r: Track)
    ensures r.identifier == t.uri && r.sourceUrl == t.uri
    ensures r.title == t.title && r.author == t.author && r.durationMillis == t.length
    ensures deriveThumb ==> r.thumbnailUrl == DeriveYoutubeThumb(Some(t.identifier), t.uri)
    ensures !deriveThumb ==> r.thumbnailUrl == None
  {
    Track(t.uri, t.title, t.author, t.length,
          t.uri, if deriveThumb then DeriveYoutubeThumb(Some(t.identifier), t.uri) else None)
  }

  /**
   * resolve: a loaded track, or the first track of a search playlist; a
   * non-search playlist and no match are unresolvable; a failed load is a
   * TrackLoadException; an empty search playlist throws inside the handler,
   * so the future is never completed and the wait times out.
   * `deriveThumb` selects YouTubeResolverPort (true) or YouTubeResolver (false).
   */
  function Resolve(query: string, load: LoadOutcome, deriveThumb: bool): (r: Resolution)
    ensures r.Resolved? <==> load.Loaded? || (load.PlaylistLoaded? && load.playlist.isSearchResult && load.playlist.tracks != [])
    ensures load.Loaded? ==> r == Resolved(ToTrack(load.track, deriveThumb))
    ensures r.Resolved? && load.PlaylistLoaded? ==> r.track == ToTrack(load.playlist.tracks[0], deriveThumb)
    ensures load.PlaylistLoaded? && !load.playlist.isSearchResult ==> r == Failed(Unresolvable("Playlists are not supported."))
    ensures load.NoMatches? ==> r == Failed(Unresolvable("No match found for: " + query))
    ensures load.LoadFailed? ==> r == Failed(LoadError("Failed to load track: " + load.message))
    ensures load.NoAnswer? || (load.PlaylistLoaded? && load.playlist.isSearchResult && load.playlist.tracks == []) ==> r == Failed(TimedOut)
  {
    match load
    case Loaded(t) => Resolved(ToTrack(t, deriveThumb))
    case PlaylistLoaded(pl) =>
      if !pl.isSearchResult then Failed(Unresolvable("Playlists are not supported."))
      else if pl.tracks == [] then Failed(TimedOut)
      else Resolved(ToTrack(pl.tracks[0], deriveThumb))
    case NoMatches => Failed(Unresolvable("No match found for: " + query))
    case LoadFailed(message) => Failed(LoadError("Failed to load track: " + message))
    case NoAnswer => Failed(TimedOut)
  }

  /** A resolver as the source manager sees it: whether it accepts a query, and what resolving it gives. */
  datatype Resolver = Resolver(canResolve: string -> bool, resolve: string -> Resolution)

  /** The YouTube resolver over a given loader: it accepts by CanResolve and resolves what the loader reports. */
  function YouTubeResolver(loader: string -> LoadOutcome, deriveThumb: bool): (y: Resolver)
    ensures forall q :: y.canResolve(q) == CanResolve(q)
    ensures forall q :: y.resolve(q) == Resolve(q, loader(LoadIdentifier(q)), deriveThumb)
  {
    Resolver(q => CanResolve(q), q => Resolve(q, loader(LoadIdentifier(q)), deriveThumb))
  }

  /** The position of the first resolver accepting the query, or the count of resolvers when none does. */
  function FirstAccepting(resolvers: seq<Resolver>, query: string): (i: nat)
    ensures i <= |resolvers|
    ensures forall j :: 0 <= j < i ==> !resolvers[j].canResolve(query)
    ensures i < |resolvers| ==> resolvers[i].canResolve(query)
  {
    if resolvers == [] then 0
    else if resolvers[0].canResolve(query) then 0
    else 1 + FirstAccepting(resolvers[1..], query)
  }

  /** Resolvers placed after one that accepts are never consulted. */
  lemma {:induction false} FirstAcceptingIgnoresLater(resolvers: seq<Resolver>, later: seq<Resolver>, query: string)
    requires FirstAccepting(resolvers, query) < |resolvers|
    ensures FirstAccepting(resolvers + later, query) == FirstAccepting(resolvers, query)
  {
    if !resolvers[0].canResolve(query) {
      assert (resolvers + later)[1..] == resolvers[1..] + later;
      FirstAcceptingIgnoresLater(resolvers[1..], later, query);
    }
  }

  /**
   * resolveTrack: delegate to the first resolver, in list order, that
   * accepts the query; its result or error is final. With no accepting
   * resolver the query is unresolvable.
   */
  method ResolveTrack(resolvers: seq<Resolver>, query: string) returns (r: Resolution)
    ensures FirstAccepting(resolvers, query) < |resolvers| ==> r == resolvers[FirstAccepting(resolvers, query)].resolve(query)
    ensures FirstAccepting(resolvers, query) == |resolvers| ==>
      r == Failed(Unresolvable("Could not find a resolver for query: " + query))
  {
    var i := 0;
    while i < |resolvers|
      invariant 0 <= i <= |resolvers|
      invariant forall j :: 0 <= j < i ==> !resolvers[j].canResolve(query)
    {
      if resolvers[i].canResolve(query) {
        return resolvers[i].resolve(query);
      }
      i := i + 1;
    }
    return Failed(Unresolvable("Could not find a resolver for query: " + query));
  }
}

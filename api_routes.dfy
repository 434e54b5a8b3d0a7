/**
 * The backend's ApiRoutes: the REST paths of the music API, each under
 * "/api/v1/music/{sessionId}", and build, which puts a session id in place
 * of the placeholder.
 */
module ApiRoutes {
  import opened JavaText

  const SESS_ID: string := "{sessionId}"
  const MusicPrefix: string := "/api/v1/music/"
  const BASE_MUSIC_URL: string := MusicPrefix + SESS_ID

  const PLAY: string := BASE_MUSIC_URL + "/play"
  const PAUSE: string := BASE_MUSIC_URL + "/pause"
  const RESUME: string := BASE_MUSIC_URL + "/resume"
  const STOP: string := BASE_MUSIC_URL + "/stop"
  const SKIP: string := BASE_MUSIC_URL + "/skip"
  const STATUS: string := BASE_MUSIC_URL + "/status"

  /** The action names after the base, one per route. */
  const Actions: seq<string> := ["/play", "/pause", "/resume", "/stop", "/skip", "/status"]

  /** build: route.replace(SESS_ID, sessionId) */
  function Build(route: string, sessionId: string): string {
    Replace(route, SESS_ID, sessionId)
  }

  /** Text holding no brace is never touched by the replacement. */
  predicate NoBrace(s: string) {
    forall k :: 0 <= k < |s| ==> s[k] != '{' && s[k] != '}'
  }

  lemma ReplaceNoBrace(s: string, replacement: string)
    requires NoBrace(s)
    ensures Replace(s, SESS_ID, replacement) == s
  {
    ReplaceSkipsPrefix(s, "", SESS_ID, replacement);
    assert s + "" == s;
  }

  lemma PrefixNoBrace()
    ensures NoBrace(MusicPrefix)
  {
  }

  /**
   * Replacing t in p + t + a, where neither p nor a holds t's first
   * character, replaces exactly the middle.
   */
  lemma ReplaceMiddle(p: string, t: string, a: string, id: string)
    requires t != []
    requires forall k :: 0 <= k < |p| ==> p[k] != t[0]
    requires forall k :: 0 <= k < |a| ==> a[k] != t[0]
    ensures Replace(p + t + a, t, id) == p + id + a
  {
    calc {
      Replace(p + t + a, t, id);
      { assert p + t + a == p + (t + a); }
      Replace(p + (t + a), t, id);
      { ReplaceSkipsPrefix(p, t + a, t, id); }
      p + Replace(t + a, t, id);
      { ReplaceAtTarget(t, a, id); ReplaceNone(a, t, id); }
      p + (id + a);
      p + id + a;
    }
  }

  lemma ReplaceAtTarget(t: string, a: string, id: string)
    requires t != []
    ensures Replace(t + a, t, id) == id + Replace(a, t, id)
  {
    assert StartsWith(t + a, t);
    assert (t + a)[|t|..] == a;
  }

  lemma ReplaceNone(a: string, t: string, id: string)
    requires t != []
    requires forall k :: 0 <= k < |a| ==> a[k] != t[0]
    ensures Replace(a, t, id) == a
  {
    ReplaceSkipsPrefix(a, [], t, id);
    assert a + [] == a;
  }

  /**
   * Building a route made of the base and a brace-free action gives the
   * prefix, the session id and the action, for every session id, so the
   * id can be cut back out of the path.
   */
  lemma BuildPutsIdInPlace(action: string, sessionId: string)
    requires NoBrace(action)
    ensures Build(BASE_MUSIC_URL + action, sessionId) == MusicPrefix + sessionId + action
    ensures var url := Build(BASE_MUSIC_URL + action, sessionId);
      url[|MusicPrefix|..|url| - |action|] == sessionId
  {
    PrefixNoBrace();
    assert SESS_ID[0] == '{';
    ReplaceMiddle(MusicPrefix, SESS_ID, action, sessionId);
    var url := MusicPrefix + sessionId + action;
    assert url[|MusicPrefix|..|url| - |action|] == sessionId;
  }

  /**
   * A session id that does not hold the placeholder leaves none in the built
   * path: the prefix and the action hold no brace, so any placeholder in the
   * path would lie inside the id.
   */
  lemma BuildLeavesNoPlaceholder(action: string, sessionId: string)
    requires NoBrace(action)
    requires !Contains(sessionId, SESS_ID)
    ensures !Contains(Build(BASE_MUSIC_URL + action, sessionId), SESS_ID)
  {
    BuildPutsIdInPlace(action, sessionId);
    var url := MusicPrefix + sessionId + action;
    ContainsIffOccurs(url, SESS_ID);
    ContainsIffOccurs(sessionId, SESS_ID);
    if Contains(url, SESS_ID) {
      var i :| OccursAt(url, SESS_ID, i);
      PrefixNoBrace();
      PlaceholderInMiddle(MusicPrefix, sessionId, action, i);
      assert false;
    }
  }

  /** A placeholder in a + m + b, where a and b hold no brace, lies inside m. */
  lemma PlaceholderInMiddle(a: string, m: string, b: string, i: int)
    requires NoBrace(a) && NoBrace(b)
    requires OccursAt(a + m + b, SESS_ID, i)
    ensures OccursAt(m, SESS_ID, i - |a|)
  {
    var s := a + m + b;
    var last := i + |SESS_ID| - 1;
    assert s[i] == SESS_ID[0] == '{';
    assert s[last] == SESS_ID[|SESS_ID| - 1] == '}';
    assert s[i..i + |SESS_ID|] == m[i - |a|..i - |a| + |SESS_ID|];
  }

  /**
   * Every route is the base followed by its action, and building it with a
   * session id gives "/api/v1/music/" + id + the action.
   */
  lemma RoutesBuild(sessionId: string)
    ensures forall i :: 0 <= i < |Actions| ==> NoBrace(Actions[i])
    ensures [PLAY, PAUSE, RESUME, STOP, SKIP, STATUS] == seq(|Actions|, i requires 0 <= i < |Actions| => BASE_MUSIC_URL + Actions[i])
    ensures forall i :: 0 <= i < |Actions| ==> Build(BASE_MUSIC_URL + Actions[i], sessionId) == MusicPrefix + sessionId + Actions[i]
  {
    forall i | 0 <= i < |Actions|
      ensures NoBrace(Actions[i])
      ensures Build(BASE_MUSIC_URL + Actions[i], sessionId) == MusicPrefix + sessionId + Actions[i]
    {
      assert NoBrace(Actions[i]);
      BuildPutsIdInPlace(Actions[i], sessionId);
    }
  }

  /** The paths the bot client's tests expect for sessions "123" and "456". */
  lemma ClientPaths()
    ensures Build(PLAY, "123") == "/api/v1/music/123/play"
    ensures Build(STATUS, "456") == "/api/v1/music/456/status"
  {
    BuildPutsIdInPlace("/play", "123");
    BuildPutsIdInPlace("/status", "456");
  }
}

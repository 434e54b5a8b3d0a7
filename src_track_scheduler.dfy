/**
 * The src tree's per-guild queue (component/audio/queue/TrackScheduler): one
 * list of Lavalink tracks and a cursor on the current one. Everything before
 * the cursor is history, everything after it is the upcoming queue.
 */
module SrcTrackScheduler {
  import opened Wrappers
  import opened JavaMath
  import opened JavaText
  import opened QueueView
  import JavaCollections
  import opened LavalinkClient

  /** findTrackIndex: the first position holding a track with identifier id, or -1. */
  function FindIndex(tracks: seq<Track>, id: string): (i: int)
    ensures -1 <= i < |tracks|
    ensures i == -1 <==> forall k :: 0 <= k < |tracks| ==> tracks[k].identifier != id
    ensures i >= 0 ==> tracks[i].identifier == id && forall k :: 0 <= k < i ==> tracks[k].identifier != id
  {
    if tracks == [] then -1
    else if tracks[0].identifier == id then 0
    else
      var j := FindIndex(tracks[1..], id);
      if j == -1 then -1 else j + 1
  }

  /** Where a jumpToPrefixedIdentifier request leads. */
  datatype Jump = JumpTo(index: int) | KeepCurrent | NoJump

  /** jumpToIndex: a move to index when it lies inside the list. */
  function JumpIfInside(tracks: seq<Track>, index: int): Jump {
    if 0 <= index < |tracks| then JumpTo(index) else NoJump
  }

  /** Does some upcoming track carry identifier id? (the stream filter of jumpToIdentifier) */
  predicate InQueue(tracks: seq<Track>, cursor: int, id: string)
    requires -1 <= cursor
  {
    exists k :: 0 <= k < |QueueOf(tracks, cursor)| && QueueOf(tracks, cursor)[k].identifier == id
  }

  /**
   * The decision of jumpToPrefixedIdentifier: "q:<i>..." targets the absolute
   * index cursor+1+i (a 32-bit sum), "h:<i>..." targets index i, "c:..."
   * keeps the current track, and any other text is an identifier that is
   * looked up among the upcoming tracks and then jumped to at its first
   * position in the whole list. An index that does not parse is no jump.
   */
  function JumpTarget(tracks: seq<Track>, cursor: int, value: string): (j: Jump)
    requires -1 <= cursor
    ensures j.JumpTo? ==> 0 <= j.index < |tracks|
  {
    if StartsWith(value, "q:") then
      match SecondField(value, ':')
      case None => NoJump
      case Some(f) =>
        match ParseInt(f)
        case None => NoJump
        case Some(q) => JumpIfInside(tracks, Wrap32(cursor + 1 + q))
    else if StartsWith(value, "h:") then
      match SecondField(value, ':')
      case None => NoJump
      case Some(f) =>
        match ParseInt(f)
        case None => NoJump
        case Some(h) => JumpIfInside(tracks, h)
    else if StartsWith(value, "c:") then KeepCurrent
    else if InQueue(tracks, cursor, value) then JumpTo(FindIndex(tracks, value))
    else NoJump
  }

  class TrackScheduler {
    var tracks: seq<Track>
    var currentIndex: int

    /** The cursor is -1 exactly when the list is empty, and otherwise inside it. */
    ghost predicate Valid()
      reads this
    {
      -1 <= currentIndex < |tracks| && (currentIndex == -1 <==> tracks == [])
    }

    constructor()
      ensures Valid() && tracks == [] && currentIndex == -1
    {
      tracks := [];
      currentIndex := -1;
    }

    /** enqueue: append; on an empty list the new track becomes current. */
    method Enqueue(track: Track)
      requires Valid()
      modifies this
      ensures Valid()
      ensures tracks == old(tracks) + [track]
      ensures currentIndex == (if old(currentIndex) == -1 then 0 else old(currentIndex))
    {
      tracks := tracks + [track];
      if currentIndex == -1 {
        currentIndex := 0;
      }
    }

    /** push: insert right after the current track, or enqueue when there is none. */
    method Push(track: Track)
      requires Valid()
      modifies this
      ensures Valid()
      ensures old(currentIndex) == -1 ==> tracks == [track] && currentIndex == 0
      ensures old(currentIndex) >= 0 ==>
        && currentIndex == old(currentIndex)
        && tracks == old(tracks)[..currentIndex + 1] + [track] + QueueOf(old(tracks), currentIndex)
      ensures multiset(tracks) == multiset(old(tracks)) + multiset{track}
      ensures tracks == old(tracks)[..old(currentIndex) + 1] + [track] + old(tracks)[old(currentIndex) + 1..]
    {
      SplitAtCursor(tracks, currentIndex);
      if currentIndex == -1 {
        Enqueue(track);
        return;
      }
      tracks := tracks[..currentIndex + 1] + [track] + QueueOf(tracks, currentIndex);
    }

    /** next: advance by one when a track follows; otherwise stay on the last track. */
    method Next() returns (r: Option<Track>)
      requires Valid()
      modifies this
      ensures Valid() && tracks == old(tracks)
      ensures old(currentIndex) + 1 < |tracks| ==>
        currentIndex == old(currentIndex) + 1 && r == Some(tracks[currentIndex])
      ensures old(currentIndex) + 1 >= |tracks| ==>
        currentIndex == |tracks| - 1 == old(currentIndex) && r == None
    {
      if currentIndex + 1 < |tracks| {
        currentIndex := currentIndex + 1;
        return Some(tracks[currentIndex]);
      }
      currentIndex := |tracks| - 1;
      return None;
    }

    /** previous: step back by one when the cursor is at least 1; otherwise nothing changes. */
    method Previous() returns (r: Option<Track>)
      requires Valid()
      modifies this
      ensures Valid() && tracks == old(tracks)
      ensures old(currentIndex) >= 1 ==>
        currentIndex == old(currentIndex) - 1 && r == Some(tracks[currentIndex])
      ensures old(currentIndex) < 1 ==> currentIndex == old(currentIndex) && r == None
    {
      if currentIndex - 1 >= 0 {
        currentIndex := currentIndex - 1;
        return Some(tracks[currentIndex]);
      }
      return None;
    }

    /** jumpToIndex: move the cursor to index when it lies inside the list. */
    method JumpToIndex(index: int) returns (r: Option<Track>)
      requires Valid()
      modifies this
      ensures Valid() && tracks == old(tracks)
      ensures 0 <= index < |tracks| ==> currentIndex == index && r == Some(tracks[index])
      ensures !(0 <= index < |tracks|) ==> currentIndex == old(currentIndex) && r == None
    {
      if index >= 0 && index < |tracks| {
        currentIndex := index;
        return Some(tracks[currentIndex]);
      }
      return None;
    }

    /** findTrackIndex: a linear scan for the first track with the same identifier. */
    method FindTrackIndex(track: Track) returns (i: int)
      ensures i == FindIndex(tracks, track.identifier)
      ensures i >= 0 ==> tracks[i].identifier == track.identifier
    {
      var id := track.identifier;
      var k := 0;
      while k < |tracks|
        invariant 0 <= k <= |tracks|
        invariant forall m :: 0 <= m < k ==> tracks[m].identifier != id
      {
        if tracks[k].identifier == id {
          return k;
        }
        k := k + 1;
      }
      return -1;
    }

    /** jumpToTrack: jump to the first position holding a track with the same identifier. */
    method JumpToTrack(track: Track) returns (r: Option<Track>)
      requires Valid()
      modifies this
      ensures Valid() && tracks == old(tracks)
      ensures var i := FindIndex(tracks, track.identifier);
        if i >= 0 then currentIndex == i && r == Some(tracks[i])
        else currentIndex == old(currentIndex) && r == None
    {
      var index := FindTrackIndex(track);
      r := JumpToIndex(index);
    }

    /**
     * jumpToIdentifier: succeeds only when an upcoming track has the
     * identifier, and then moves to that identifier's first position in the
     * whole list.
     */
    method JumpToIdentifier(identifier: string) returns (r: Option<Track>)
      requires Valid()
      modifies this
      ensures Valid() && tracks == old(tracks)
      ensures InQueue(tracks, old(currentIndex), identifier) ==>
        var i := FindIndex(tracks, identifier);
        currentIndex == i && r == Some(tracks[i])
      ensures !InQueue(tracks, old(currentIndex), identifier) ==>
        currentIndex == old(currentIndex) && r == None
    {
      var queue := GetQueue();
      var k := 0;
      while k < |queue|
        invariant 0 <= k <= |queue|
        invariant forall m :: 0 <= m < k ==> queue[m].identifier != identifier
      {
        if queue[k].identifier == identifier {
          r := JumpToTrack(queue[k]);
          return;
        }
        k := k + 1;
      }
      return None;
    }

    /** jumpToPrefixedIdentifier: follow the decision JumpTarget describes. */
    method JumpToPrefixedIdentifier(value: string) returns (r: Option<Track>)
      requires Valid()
      modifies this
      ensures Valid() && tracks == old(tracks)
      ensures match JumpTarget(tracks, old(currentIndex), value)
        case JumpTo(i) => currentIndex == i && r == Some(tracks[i])
        case KeepCurrent => currentIndex == old(currentIndex) && r == CurrentOf(tracks, currentIndex)
        case NoJump => currentIndex == old(currentIndex) && r == None
    {
      ghost var jump := JumpTarget(tracks, currentIndex, value);
      if StartsWith(value, "q:") {
        var parts1 := SecondField(value, ':');
        if parts1.Some? {
          var q := ParseInt(parts1.value);
          if q.Some? {
            assert jump == JumpIfInside(tracks, Wrap32(currentIndex + 1 + q.value));
            r := JumpToIndex(Wrap32(currentIndex + 1 + q.value));
            return;
          }
        }
      } else if StartsWith(value, "h:") {
        var parts1 := SecondField(value, ':');
        if parts1.Some? {
          var h := ParseInt(parts1.value);
          if h.Some? {
            assert jump == JumpIfInside(tracks, h.value);
            r := JumpToIndex(h.value);
            return;
          }
        }
      } else if StartsWith(value, "c:") {
        assert jump == KeepCurrent;
        r := GetCurrentTrack();
        return;
      } else {
        r := JumpToIdentifier(value);
        return;
      }
      assert jump == NoJump;
      return None;
    }

    /** getCurrentTrack */
    method GetCurrentTrack() returns (r: Option<Track>)
      ensures r == CurrentOf(tracks, currentIndex)
      ensures r.Some? <==> 0 <= currentIndex < |tracks|
    {
      if currentIndex >= 0 && currentIndex < |tracks| {
        return Some(tracks[currentIndex]);
      }
      return None;
    }

    /** getQueue: the tracks after the cursor. */
    method GetQueue() returns (r: seq<Track>)
      requires Valid()
      ensures r == QueueOf(tracks, currentIndex)
      ensures |r| == |tracks| - currentIndex - 1
      ensures forall k :: 0 <= k < |r| ==> r[k] == tracks[currentIndex + 1 + k]
    {
      if currentIndex + 1 >= |tracks| {
        return [];
      }
      return QueueOf(tracks, currentIndex);
    }

    /** getHistory: the tracks before the cursor. */
    method GetHistory() returns (r: seq<Track>)
      requires Valid()
      ensures r == HistoryOf(tracks, currentIndex)
      ensures |r| == (if currentIndex <= 0 then 0 else currentIndex)
      ensures forall k :: 0 <= k < |r| ==> r[k] == tracks[k]
    {
      if currentIndex <= 0 {
        return [];
      }
      return tracks[..currentIndex];
    }

    /** isEmpty: no track at all, so no history, no current track and no upcoming track. */
    method IsEmpty() returns (empty: bool)
      requires Valid()
      ensures empty <==> tracks == []
      ensures empty <==> HistoryOf(tracks, currentIndex) == [] && CurrentOf(tracks, currentIndex).None?
                         && QueueOf(tracks, currentIndex) == []
    {
      Partition(tracks, currentIndex);
      empty := |tracks| == 0;
    }

    /**
     * size: every track held, played ones and the current one included,
     * not only the upcoming ones.
     */
    method Size() returns (n: int)
      requires Valid()
      ensures n == |tracks|
      ensures n == |HistoryOf(tracks, currentIndex)| + |AsList(CurrentOf(tracks, currentIndex))| + |QueueOf(tracks, currentIndex)|
    {
      Partition(tracks, currentIndex);
      n := |tracks|;
    }

    /** clearAll: forget every track. */
    method ClearAll()
      modifies this
      ensures Valid() && tracks == [] && currentIndex == -1
    {
      tracks := [];
      currentIndex := -1;
    }

    /**
     * shuffle: Collections.shuffle on the upcoming tracks; the history and
     * the current track keep their places and the queue keeps its tracks.
     */
    method Shuffle(draws: seq<nat>)
      requires Valid()
      modifies this
      ensures Valid() && currentIndex == old(currentIndex) && |tracks| == |old(tracks)|
      ensures tracks[..currentIndex + 1] == old(tracks)[..currentIndex + 1]
      ensures multiset(QueueOf(tracks, currentIndex)) == multiset(QueueOf(old(tracks), currentIndex))
    {
      var start := currentIndex + 1;
      if start >= |tracks| {
        return;
      }
      var shuffled := JavaCollections.Shuffle(QueueOf(tracks, currentIndex), draws);
      QueueAfterPrefix(tracks[..start], shuffled, currentIndex);
      tracks := tracks[..start] + shuffled;
    }
  }

  /** A "q:<i>:<rest>" value for queue position i lands on the i-th upcoming track. */
  lemma {:induction false} QueueValueJumps(tracks: seq<Track>, cursor: int, i: int, rest: string)
    requires -1 <= cursor < |tracks| <= INT_MAX
    requires 0 <= i < |QueueOf(tracks, cursor)|
    ensures JumpTarget(tracks, cursor, "q:" + IntToString(i) + ":" + rest) == JumpTo(cursor + 1 + i)
    ensures tracks[cursor + 1 + i] == QueueOf(tracks, cursor)[i]
  {
    QueueAt(tracks, cursor, i);
    QueueIndexJumps(tracks, cursor, i, rest);
  }

  /** A "q:<i>:<rest>" value whose target cursor+1+i lies inside the list lands there. */
  lemma {:induction false} QueueIndexJumps(tracks: seq<Track>, cursor: int, i: int, rest: string)
    requires -1 <= cursor && 0 <= i && cursor + 1 + i < |tracks| <= INT_MAX
    ensures JumpTarget(tracks, cursor, "q:" + IntToString(i) + ":" + rest) == JumpTo(cursor + 1 + i)
  {
    var v := "q:" + IntToString(i) + ":" + rest;
    TaggedValueFields('q', i, rest);
    assert StartsWith(v, "q:") && SecondField(v, ':') == Some(IntToString(i));
    assert Wrap32(cursor + 1 + i) == cursor + 1 + i;
  }

  /** An "h:<i>:<rest>" value lands on absolute index i, whatever the cursor. */
  lemma {:induction false} HistoryValueJumps(tracks: seq<Track>, cursor: int, i: int, rest: string)
    requires -1 <= cursor && 0 <= i < |tracks| <= INT_MAX
    ensures JumpTarget(tracks, cursor, "h:" + IntToString(i) + ":" + rest) == JumpTo(i)
  {
    TaggedValueFields('h', i, rest);
  }

  /**
   * A value "<tag>:<i>:<rest>" starts with its tag and a colon, its second
   * colon-separated field is i written out, and that field parses back to i.
   */
  lemma {:induction false} TaggedValueFields(tag: char, i: int, rest: string)
    requires tag != ':' && INT_MIN <= i <= INT_MAX
    ensures var v := [tag, ':'] + IntToString(i) + ":" + rest;
      && StartsWith(v, [tag, ':']) && v[0] == tag
      && SecondField(v, ':') == Some(IntToString(i))
      && ParseInt(IntToString(i)) == Some(i)
  {
    var v := [tag, ':'] + IntToString(i) + ":" + rest;
    assert v == [tag] + [':'] + IntToString(i) + [':'] + rest;
    SecondFieldOf([tag], ':', IntToString(i), rest);
    assert v[..2] == [tag, ':'];
    ParseIntOfIntToString(i);
  }

  /** A "c:" value keeps the current track. */
  lemma CurrentValueKeeps(tracks: seq<Track>, cursor: int, rest: string)
    requires -1 <= cursor
    ensures JumpTarget(tracks, cursor, "c:" + rest) == KeepCurrent
  {
    var v := "c:" + rest;
    assert v[..2] == "c:";
  }

  /** "q:-1:..." is accepted and lands on the current track itself. */
  lemma {:induction false} QueueMinusOneIsCurrent(tracks: seq<Track>, cursor: int, rest: string)
    requires 0 <= cursor < |tracks| <= INT_MAX
    ensures JumpTarget(tracks, cursor, "q:-1:" + rest) == JumpTo(cursor)
  {
    var v := "q:-1:" + rest;
    assert v == "q" + [':'] + "-1" + [':'] + rest;
    SecondFieldOf("q", ':', "-1", rest);
    assert IntToString(-1) == "-1";
    ParseIntOfIntToString(-1);
    assert StartsWith(v, "q:");
  }

  /**
   * A bare identifier that is upcoming but also appears in the history lands
   * on the history copy: with tracks [a, b, a'] (a and a' sharing an
   * identifier) and cursor 1, the jump goes to index 0, not 2.
   */
  lemma {:induction false} IdentifierJumpMayGoBack(a: Track, b: Track, a2: Track)
    requires a.identifier == a2.identifier != b.identifier
    requires !StartsWith(a.identifier, "q:") && !StartsWith(a.identifier, "h:") && !StartsWith(a.identifier, "c:")
    ensures JumpTarget([a, b, a2], 1, a.identifier) == JumpTo(0)
  {
    var tracks := [a, b, a2];
    assert QueueOf(tracks, 1) == [a2];
    assert QueueOf(tracks, 1)[0].identifier == a.identifier;
    assert InQueue(tracks, 1, a.identifier);
  }
}

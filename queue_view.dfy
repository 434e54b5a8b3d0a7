/**
 * The three read-only views every TrackScheduler variant offers over its
 * list and cursor: the played history (getHistory), the current entry
 * (getCurrentTrack / getCurrentItem) and the upcoming queue (getQueue).
 */
module QueueView {
  import opened Wrappers

  /** getHistory: empty when the cursor is at most 0, else the entries before the cursor. */
  function HistoryOf<T>(items: seq<T>, cursor: int): seq<T>
    requires cursor <= |items|
  {
    if cursor <= 0 then [] else items[..cursor]
  }

  /** getCurrentTrack: the entry under the cursor, if the cursor is inside the list. */
  function CurrentOf<T>(items: seq<T>, cursor: int): Option<T> {
    if 0 <= cursor < |items| then Some(items[cursor]) else None
  }

  /**
   * getQueue: empty when nothing follows the cursor, else the entries after
   * it (items[cursor + 1..]), listed entry by entry.
   */
  function QueueOf<T>(items: seq<T>, cursor: int): seq<T>
    requires -1 <= cursor
  {
    if cursor + 1 >= |items| then []
    else seq(|items| - cursor - 1, i requires 0 <= i < |items| - cursor - 1 => items[cursor + 1 + i])
  }

  /** The current entry as a list of zero or one elements. */
  function AsList<T>(o: Option<T>): seq<T> {
    if o.Some? then [o.value] else []
  }

  /**
   * For any cursor in -1..|items|-1 the three views split the list:
   * history ++ [current] ++ queue is the whole list, the current entry exists
   * exactly when the cursor is at least 0, the history holds the cursor's
   * many entries and the queue the rest.
   */
  lemma {:induction false} Partition<T>(items: seq<T>, cursor: int)
    requires -1 <= cursor < |items|
    ensures HistoryOf(items, cursor) + AsList(CurrentOf(items, cursor)) + QueueOf(items, cursor) == items
    ensures CurrentOf(items, cursor).Some? <==> cursor >= 0
    ensures |HistoryOf(items, cursor)| == (if cursor < 0 then 0 else cursor)
    ensures |QueueOf(items, cursor)| == |items| - cursor - 1
  {
    var h, c, q := HistoryOf(items, cursor), AsList(CurrentOf(items, cursor)), QueueOf(items, cursor);
    var n := if cursor < 0 then 0 else cursor;
    assert |h| == n && |c| == cursor + 1 - n && |q| == |items| - cursor - 1;
    forall k | 0 <= k < |items| ensures (h + c + q)[k] == items[k] {
      if k < n {
        assert (h + c + q)[k] == h[k];
      } else if k < cursor + 1 {
        assert (h + c + q)[k] == c[0];
      } else {
        assert (h + c + q)[k] == q[k - cursor - 1];
      }
    }
  }

  /** The i-th queue entry is the list entry i places after the cursor. */
  lemma QueueAt<T>(items: seq<T>, cursor: int, i: int)
    requires -1 <= cursor && 0 <= i < |QueueOf(items, cursor)|
    ensures cursor + 1 + i < |items| && QueueOf(items, cursor)[i] == items[cursor + 1 + i]
  {
  }

  /** The queue of a list whose first cursor+1 entries are `prefix` is what follows the prefix. */
  lemma QueueAfterPrefix<T>(prefix: seq<T>, rest: seq<T>, cursor: int)
    requires -1 <= cursor && |prefix| == cursor + 1
    ensures QueueOf(prefix + rest, cursor) == rest
  {
    var q := QueueOf(prefix + rest, cursor);
    assert |q| == |rest|;
    forall k | 0 <= k < |rest| ensures q[k] == rest[k] {
      assert q[k] == (prefix + rest)[cursor + 1 + k];
    }
  }

  /**
   * A list is its entries up to the cursor followed by its queue, so its
   * elements are those of the two parts together.
   */
  lemma SplitAtCursor<T>(items: seq<T>, cursor: int)
    requires -1 <= cursor < |items|
    ensures items == items[..cursor + 1] + QueueOf(items, cursor)
    ensures multiset(items) == multiset(items[..cursor + 1]) + multiset(QueueOf(items, cursor))
  {
    var p, q := items[..cursor + 1], QueueOf(items, cursor);
    assert |p + q| == |items|;
    forall k | 0 <= k < |items| ensures (p + q)[k] == items[k] {
      if k > cursor {
        assert (p + q)[k] == q[k - cursor - 1];
      }
    }
    assert items == p + q;
  }
}

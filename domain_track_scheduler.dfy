/**
 * The backend domain queue (backend domain/player/TrackScheduler): a list of
 * queue items, a cursor and a repeat flag. Unlike the src queue, enqueue never
 * moves the cursor, so a non-empty list may still have no current item.
 */
module DomainTrackScheduler {
  import opened Wrappers
  import opened QueueView
  import JavaCollections
  import opened BackendModel

  /** findTrackIndex: the first position whose track has identifier id, or -1. */
  function FindIndex(items: seq<QueueItem>, id: string): (i: int)
    ensures -1 <= i < |items|
    ensures i == -1 <==> forall k :: 0 <= k < |items| ==> items[k].track.identifier != id
    ensures i >= 0 ==> items[i].track.identifier == id && forall k :: 0 <= k < i ==> items[k].track.identifier != id
  {
    if items == [] then -1
    else if items[0].track.identifier == id then 0
    else
      var j := FindIndex(items[1..], id);
      if j == -1 then -1 else j + 1
  }

  class TrackScheduler {
    var items: seq<QueueItem>
    var currentIndex: int
    var repeatEnabled: bool

    /** The cursor is -1 (nothing current) or a position inside the list. */
    ghost predicate Valid()
      reads this
    {
      -1 <= currentIndex < |items|
    }

    constructor()
      ensures Valid() && items == [] && currentIndex == -1 && !repeatEnabled
    {
      items := [];
      currentIndex := -1;
      repeatEnabled := false;
    }

    /** enqueue: append at the end; the cursor does not move. */
    method Enqueue(item: QueueItem)
      requires Valid()
      modifies this
      ensures Valid()
      ensures items == old(items) + [item]
      ensures currentIndex == old(currentIndex) && repeatEnabled == old(repeatEnabled)
    {
      items := items + [item];
    }

    /** addNext: insert at currentIndex+1, which is the front when nothing is current. */
    method AddNext(item: QueueItem)
      requires Valid()
      modifies this
      ensures Valid()
      ensures items == old(items)[..old(currentIndex) + 1] + [item] + QueueOf(old(items), old(currentIndex))
      ensures currentIndex == old(currentIndex) && repeatEnabled == old(repeatEnabled)
      ensures QueueOf(items, currentIndex) == [item] + QueueOf(old(items), currentIndex)
    {
      QueueAfterPrefix(items[..currentIndex + 1], [item] + QueueOf(items, currentIndex), currentIndex);
      items := items[..currentIndex + 1] + [item] + QueueOf(items, currentIndex);
    }

    /** next: advance by one when an item follows; otherwise park the cursor on the last item. */
    method Next() returns (r: Option<QueueItem>)
      requires Valid()
      modifies this
      ensures Valid() && items == old(items) && repeatEnabled == old(repeatEnabled)
      ensures old(currentIndex) + 1 < |items| ==>
        currentIndex == old(currentIndex) + 1 && r == Some(items[currentIndex])
      ensures old(currentIndex) + 1 >= |items| ==>
        currentIndex == |items| - 1 == old(currentIndex) && r == None
    {
      if currentIndex + 1 < |items| {
        currentIndex := currentIndex + 1;
        return Some(items[currentIndex]);
      }
      currentIndex := |items| - 1;
      return None;
    }

    /** previous: step back when the cursor is at least 1; otherwise nothing changes. */
    method Previous() returns (r: Option<QueueItem>)
      requires Valid()
      modifies this
      ensures Valid() && items == old(items) && repeatEnabled == old(repeatEnabled)
      ensures old(currentIndex) >= 1 ==>
        currentIndex == old(currentIndex) - 1 && r == Some(items[currentIndex])
      ensures old(currentIndex) < 1 ==> currentIndex == old(currentIndex) && r == None
    {
      if currentIndex - 1 >= 0 {
        currentIndex := currentIndex - 1;
        return Some(items[currentIndex]);
      }
      return None;
    }

    /** shuffle: permute the upcoming items; history and current keep their places. */
    method Shuffle(draws: seq<nat>)
      requires Valid()
      modifies this
      ensures Valid() && currentIndex == old(currentIndex) && repeatEnabled == old(repeatEnabled)
      ensures |items| == |old(items)|
      ensures items[..currentIndex + 1] == old(items)[..currentIndex + 1]
      ensures multiset(QueueOf(items, currentIndex)) == multiset(QueueOf(old(items), currentIndex))
    {
      var upcomingStart := currentIndex + 1;
      if upcomingStart >= |items| {
        return;
      }
      var shuffled := JavaCollections.Shuffle(QueueOf(items, currentIndex), draws);
      QueueAfterPrefix(items[..upcomingStart], shuffled, currentIndex);
      items := items[..upcomingStart] + shuffled;
    }

    /** toggleRepeat: flip the flag and return its new value. */
    method ToggleRepeat() returns (r: bool)
      requires Valid()
      modifies this
      ensures Valid() && items == old(items) && currentIndex == old(currentIndex)
      ensures repeatEnabled == !old(repeatEnabled) && r == repeatEnabled
    {
      repeatEnabled := !repeatEnabled;
      return repeatEnabled;
    }

    /** getCurrentItem: present exactly when the cursor is inside the list. */
    method GetCurrentItem() returns (r: Option<QueueItem>)
      ensures r == CurrentOf(items, currentIndex)
      ensures r.Some? <==> 0 <= currentIndex < |items|
    {
      if currentIndex >= 0 && currentIndex < |items| {
        return Some(items[currentIndex]);
      }
      return None;
    }

    /** getQueue: the items after the cursor. */
    method GetQueue() returns (r: seq<QueueItem>)
      requires Valid()
      ensures r == QueueOf(items, currentIndex)
      ensures |r| == |items| - currentIndex - 1
      ensures forall k :: 0 <= k < |r| ==> r[k] == items[currentIndex + 1 + k]
    {
      if currentIndex + 1 >= |items| {
        return [];
      }
      return QueueOf(items, currentIndex);
    }

    /** getHistory: the items before the cursor. */
    method GetHistory() returns (r: seq<QueueItem>)
      requires Valid()
      ensures r == HistoryOf(items, currentIndex)
      ensures |r| == (if currentIndex <= 0 then 0 else currentIndex)
      ensures forall k :: 0 <= k < |r| ==> r[k] == items[k]
    {
      if currentIndex <= 0 {
        return [];
      }
      return items[..currentIndex];
    }

    /** clearQueue: drop the items after the cursor; history and current stay. */
    method ClearQueue()
      requires Valid()
      modifies this
      ensures Valid() && currentIndex == old(currentIndex) && repeatEnabled == old(repeatEnabled)
      ensures items == old(items)[..currentIndex + 1]
      ensures QueueOf(items, currentIndex) == []
      ensures HistoryOf(items, currentIndex) == HistoryOf(old(items), currentIndex)
      ensures CurrentOf(items, currentIndex) == CurrentOf(old(items), currentIndex)
    {
      if currentIndex + 1 < |items| {
        items := items[..currentIndex + 1];
      }
    }

    /** clearAll: forget every item; the repeat flag is kept. */
    method ClearAll()
      modifies this
      ensures Valid() && items == [] && currentIndex == -1
      ensures repeatEnabled == old(repeatEnabled)
    {
      items := [];
      currentIndex := -1;
    }

    /** peekNext: the head of the upcoming queue, which is what next would return. */
    method PeekNext() returns (r: Option<QueueItem>)
      requires Valid()
      ensures r.Some? <==> |QueueOf(items, currentIndex)| > 0
      ensures r.Some? ==> r.value == QueueOf(items, currentIndex)[0]
      ensures r.Some? <==> currentIndex + 1 < |items|
      ensures r.Some? ==> r.value == items[currentIndex + 1]
    {
      if currentIndex + 1 < |items| {
        return Some(items[currentIndex + 1]);
      }
      return None;
    }

    /** peekPrevious: the last history entry, which is what previous would return. */
    method PeekPrevious() returns (r: Option<QueueItem>)
      requires Valid()
      ensures r.Some? <==> |HistoryOf(items, currentIndex)| > 0
      ensures r.Some? ==> r.value == HistoryOf(items, currentIndex)[|HistoryOf(items, currentIndex)| - 1]
      ensures r.Some? <==> currentIndex >= 1
      ensures r.Some? ==> r.value == items[currentIndex - 1]
    {
      if currentIndex - 1 >= 0 {
        return Some(items[currentIndex - 1]);
      }
      return None;
    }

    /** findTrackIndex: a linear scan for the first item with the identifier. */
    method FindTrackIndex(identifier: string) returns (i: int)
      ensures i == FindIndex(items, identifier)
      ensures i >= 0 ==> items[i].track.identifier == identifier
    {
      var k := 0;
      while k < |items|
        invariant 0 <= k <= |items|
        invariant forall m :: 0 <= m < k ==> items[m].track.identifier != identifier
      {
        if items[k].track.identifier == identifier {
          return k;
        }
        k := k + 1;
      }
      return -1;
    }

    /** setCurrentIndex: accepted exactly for -1..|items|-1, otherwise ignored. */
    method SetCurrentIndex(index: int)
      requires Valid()
      modifies this
      ensures Valid() && items == old(items) && repeatEnabled == old(repeatEnabled)
      ensures currentIndex == (if -1 <= index < |items| then index else old(currentIndex))
    {
      if index >= -1 && index < |items| {
        currentIndex := index;
      }
    }
  }
}

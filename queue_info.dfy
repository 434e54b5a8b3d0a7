/**
 * The src tree's QueueInfoFieldRenderer: a "Queue" field giving the number
 * of queued songs and their total length, each negative length counted as
 * zero.
 */
module SrcQueueInfo {
  import opened Wrappers
  import opened JavaMath
  import opened JavaText
  import opened JavaCollections
  import opened DurationFormat
  import opened Panel
  import PlayerViewMapper

  /** The lengths of the queued tracks, in queue order. */
  function Lengths(queue: seq<PlayerViewMapper.TrackView>): (lengths: seq<int>)
    ensures |lengths| == |queue|
    ensures forall k :: 0 <= k < |queue| ==> lengths[k] == queue[k].lengthMillis
  {
    seq(|queue|, k requires 0 <= k < |queue| => queue[k].lengthMillis)
  }

  /** mapToLong(max(0, length)).sum() */
  function ClampedSum(lengths: seq<int>): (total: int)
    ensures total >= 0
  {
    if lengths == [] then 0 else ClampedSum(lengths[..|lengths| - 1]) + Max(0, lengths[|lengths| - 1])
  }

  /** The clamped total of two runs of lengths is the sum of their totals. */
  lemma {:induction false} ClampedSumAppend(a: seq<int>, b: seq<int>)
    ensures ClampedSum(a + b) == ClampedSum(a) + ClampedSum(b)
  {
    if b != [] {
      assert (a + b)[..|a + b| - 1] == a + b[..|b| - 1];
      ClampedSumAppend(a, b[..|b| - 1]);
    } else {
      assert a + b == a;
    }
  }

  /** Every track's clamped length is part of the total: none of them exceeds it. */
  lemma {:induction false} ClampedSumCovers(lengths: seq<int>, k: int)
    requires 0 <= k < |lengths|
    ensures Max(0, lengths[k]) <= ClampedSum(lengths)
  {
    if k < |lengths| - 1 {
      ClampedSumCovers(lengths[..|lengths| - 1], k);
    }
  }

  /** The text after the song count. */
  const Separator: string := " songs in queue \U{2022} "

  /** String.format("%d songs in queue • %s", size, formatDuration(total)) */
  function QueueText(queue: seq<PlayerViewMapper.TrackView>): string {
    IntToString(|queue|) + Separator + CompactClock(ClampedSum(Lengths(queue)))
  }

  /** render: no field for an empty queue, otherwise the "Queue" field, not inline. */
  function Render(view: PlayerViewMapper.PlayerView): (field: Option<EmbedField>)
    ensures field.None? <==> view.queue == []
    ensures field.Some? ==> field.value.name == "Queue" && !field.value.inline
  {
    if view.queue == [] then None
    else Some(EmbedField("Queue", QueueText(view.queue), false))
  }

  /**
   * The field reads back: it starts with the queue's size in decimal, which
   * parses back to that size, and after the separator comes a clock whose
   * value is the total clamped length in whole seconds.
   */
  lemma RenderReadsBack(view: PlayerViewMapper.PlayerView)
    requires |view.queue| > 0 && |view.queue| <= INT_MAX
    requires Hours(ClampedSum(Lengths(view.queue))) <= INT_MAX
    ensures var text := Render(view).value.value;
      var count := IntToString(|view.queue|);
      && text[..|count|] == count && ParseInt(count) == Some(|view.queue|)
      && text[|count|..|count| + |Separator|] == Separator
      && ClockValue(text[|count| + |Separator|..]) == Some(ClampedSum(Lengths(view.queue)) / 1000)
  {
    var total := ClampedSum(Lengths(view.queue));
    var count := IntToString(|view.queue|);
    var text := Render(view).value.value;
    assert text == count + Separator + CompactClock(total);
    ConcatSlices(count, Separator, CompactClock(total));
    ParseIntOfIntToString(|view.queue|);
    CompactClockReadsBack(total);
  }
}

/**
 * The backend tree's QueueInfoFieldRenderer: the same field, but summing the
 * durations as they are (no clamping) and printing the bullet as the three
 * characters a UTF-8 "•" becomes when read as Windows-1252.
 */
module BackendQueueInfo {
  import opened Wrappers
  import opened JavaMath
  import opened JavaText
  import opened JavaCollections
  import opened DurationFormat
  import opened Panel
  import BackendModel
  import SrcQueueInfo

  /** The durations of the queued items' tracks, in queue order. */
  function Durations(queue: seq<BackendModel.QueueItem>): (lengths: seq<int>)
    ensures |lengths| == |queue|
    ensures forall k :: 0 <= k < |queue| ==> lengths[k] == queue[k].track.durationMillis
  {
    seq(|queue|, k requires 0 <= k < |queue| => queue[k].track.durationMillis)
  }

  /** mapToLong(duration).sum() */
  function PlainSum(lengths: seq<int>): int {
    if lengths == [] then 0 else PlainSum(lengths[..|lengths| - 1]) + lengths[|lengths| - 1]
  }

  /**
   * The backend's plain total never exceeds the src tree's clamped total,
   * and the two agree exactly when no length is negative.
   */
  lemma {:induction false} PlainSumAgrees(lengths: seq<int>)
    ensures PlainSum(lengths) <= SrcQueueInfo.ClampedSum(lengths)
    ensures PlainSum(lengths) == SrcQueueInfo.ClampedSum(lengths) <==> forall k :: 0 <= k < |lengths| ==> lengths[k] >= 0
  {
    if lengths != [] {
      var init := lengths[..|lengths| - 1];
      PlainSumAgrees(init);
      if PlainSum(lengths) == SrcQueueInfo.ClampedSum(lengths) {
        forall k | 0 <= k < |lengths| ensures lengths[k] >= 0 {
          if k < |lengths| - 1 {
            assert init[k] == lengths[k];
          }
        }
      }
    }
  }

  /** The mis-decoded bullet "â€¢". */
  const Separator: string := " songs in queue \U{E2}\U{20AC}\U{A2} "

  /** String.format("%d songs in queue â€¢ %s", size, format(total)) */
  function QueueText(queue: seq<BackendModel.QueueItem>): string {
    IntToString(|queue|) + Separator + CompactClock(PlainSum(Durations(queue)))
  }

  /** render: no field for an empty queue, otherwise the "Queue" field, not inline. */
  function Render(queue: seq<BackendModel.QueueItem>): (field: Option<EmbedField>)
    ensures field.None? <==> queue == []
    ensures field.Some? ==> field.value.name == "Queue" && !field.value.inline
  {
    if queue == [] then None
    else Some(EmbedField("Queue", QueueText(queue), false))
  }

  /**
   * The field starts with the queue's size, which parses back to it; the
   * clock after the separator shows the plain total in whole seconds, or
   * zero when that total is zero or negative.
   */
  lemma RenderReadsBack(queue: seq<BackendModel.QueueItem>)
    requires |queue| > 0 && |queue| <= INT_MAX
    requires Hours(PlainSum(Durations(queue))) <= INT_MAX
    ensures var text := Render(queue).value.value;
      var count := IntToString(|queue|);
      var total := PlainSum(Durations(queue));
      && text[..|count|] == count && ParseInt(count) == Some(|queue|)
      && text[|count|..|count| + |Separator|] == Separator
      && ClockValue(text[|count| + |Separator|..]) == Some(if total <= 0 then 0 else total / 1000)
  {
    var total := PlainSum(Durations(queue));
    var count := IntToString(|queue|);
    var text := Render(queue).value.value;
    assert text == count + Separator + CompactClock(total);
    ConcatSlices(count, Separator, CompactClock(total));
    ParseIntOfIntToString(|queue|);
    CompactClockReadsBack(total);
  }
}

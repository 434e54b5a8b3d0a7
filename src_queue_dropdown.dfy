/**
 * The src tree's QueueDropdownRenderer: the "jump to a track" select menu
 * of the player panel. History entries come first, most recent first and
 * valued "h:<i>:<id>"; then the current track, valued "c:<id>"; then the
 * upcoming tracks, valued "q:<i>:<id>". The regex title cleaner is a
 * parameter.
 */
module SrcQueueDropdown {
  import opened Wrappers
  import opened JavaMath
  import opened JavaText
  import opened QueueView
  import opened PlayerViewMapper
  import opened JavaCollections
  import LavalinkClient
  import Scheduler = SrcTrackScheduler

  /** A JDA SelectOption as a plain record. */
  datatype SelectOption = SelectOption(labelText: string, value: string, description: Option<string>, isDefault: bool)

  /** A JDA StringSelectMenu as a plain record. */
  datatype SelectMenu = SelectMenu(id: string, placeholder: string, disabled: bool, options: seq<SelectOption>)

  const ComponentId: string := "player:queue-jump"
  const MaxHistoryOptions: int := 10
  const MaxQueueOptions: int := 14

  /** The single disabled option shown when there is nothing to jump to. */
  const EmptyMenu: SelectMenu :=
    SelectMenu(ComponentId, "No tracks in queue or history!", true, [SelectOption("empty", "noop", None, false)])

  /** truncate: "" for null; text within the limit as is; otherwise its first max-1 characters and an ellipsis. */
  function Truncate(text: Option<string>, maxLength: int): (r: string)
    ensures text.None? ==> r == ""
    ensures text.Some? && |text.value| <= maxLength ==> r == text.value
    ensures text.Some? && |text.value| > maxLength ==>
      |r| == Max(0, maxLength - 1) + 1 && r == text.value[..Max(0, maxLength - 1)] + "\U{2026}"
    ensures maxLength >= 1 ==> |r| <= maxLength
  {
    if text.None? then ""
    else if |text.value| <= maxLength then text.value
    else text.value[..Max(0, maxLength - 1)] + "\U{2026}"
  }

  /** safeValue: "null" for null; otherwise the trimmed identifier cut to at most 80 characters. */
  function SafeValue(id: Option<string>): (r: string)
    ensures id.None? ==> r == "null"
    ensures id.Some? ==> |r| <= 80 && |r| <= |Trim(id.value)| && r == Trim(id.value)[..|r|]
    ensures id.Some? && |Trim(id.value)| <= 80 ==> r == Trim(id.value)
  {
    if id.None? then "null"
    else
      var v := Trim(id.value);
      if |v| <= 80 then v else v[..80]
  }

  /** A value made of a one-letter tag, a colon, an index, a colon and the safe identifier. */
  function IndexedValue(tag: char, index: int, id: string): string {
    [tag, ':'] + IntToString(index) + ":" + SafeValue(Some(id))
  }

  /** The option of a played track, carrying value index `index`. */
  function HistoryOption(index: int, t: TrackView, clean: string -> string): SelectOption {
    SelectOption(Truncate(Some(clean(t.title)), 95), IndexedValue('h', index, t.identifier),
                 Some("\U{23EA} Recently Played"), false)
  }

  function CurrentOption(t: TrackView, clean: string -> string): SelectOption {
    SelectOption(Truncate(Some(clean(t.title)), 95) + "  \U{2195}\U{FE0F}", "c:" + SafeValue(Some(t.identifier)),
                 Some("\U{25B6}\U{FE0F} Now Playing"), true)
  }

  function QueueOption(i: int, t: TrackView, clean: string -> string): SelectOption {
    SelectOption(Truncate(Some(IntToString(i + 1) + ". " + clean(t.title)), 100), IndexedValue('q', i, t.identifier),
                 Some("\U{23E9} Up Next"), false)
  }

  /**
   * The history options as written: position i of the reversed history,
   * i.e. history entry |h|-1-i, is valued with index i.
   */
  function HistoryOptions(h: seq<TrackView>, clean: string -> string): (os: seq<SelectOption>)
    ensures |os| == Min(|h|, MaxHistoryOptions)
    ensures forall i :: 0 <= i < |os| ==> os[i] == HistoryOption(i, h[|h| - 1 - i], clean)
  {
    seq(Min(|h|, MaxHistoryOptions), i requires 0 <= i < Min(|h|, MaxHistoryOptions) => HistoryOption(i, h[|h| - 1 - i], clean))
  }

  function CurrentOptions(c: Option<TrackView>, clean: string -> string): (os: seq<SelectOption>)
    ensures |os| == (if c.Some? then 1 else 0)
  {
    if c.Some? then [CurrentOption(c.value, clean)] else []
  }

  function QueueOptions(q: seq<TrackView>, clean: string -> string): (os: seq<SelectOption>)
    ensures |os| == Min(|q|, MaxQueueOptions)
    ensures forall i :: 0 <= i < |os| ==> os[i] == QueueOption(i, q[i], clean)
  {
    seq(Min(|q|, MaxQueueOptions), i requires 0 <= i < Min(|q|, MaxQueueOptions) => QueueOption(i, q[i], clean))
  }

  /** All options of a non-empty menu: at most 10 + 1 + 14 = 25. */
  function Options(view: PlayerView, clean: string -> string): (os: seq<SelectOption>)
    ensures |os| == Min(|view.history|, MaxHistoryOptions) + (if view.currentTrack.Some? then 1 else 0)
                    + Min(|view.queue|, MaxQueueOptions)
    ensures |os| <= 25
  {
    HistoryOptions(view.history, clean) + CurrentOptions(view.currentTrack, clean) + QueueOptions(view.queue, clean)
  }

  predicate HasContent(view: PlayerView) {
    view.history != [] || view.currentTrack.Some? || view.queue != []
  }

  predicate ValuesDistinct(os: seq<SelectOption>) {
    forall a, b :: 0 <= a < b < |os| ==> os[a].value != os[b].value
  }

  /** ensureUniqueValues: the first value already seen, or none when all values differ. */
  method EnsureUniqueValues(opts: seq<SelectOption>) returns (dup: Option<string>)
    ensures dup.None? <==> ValuesDistinct(opts)
    ensures dup.Some? ==> exists a, b :: 0 <= a < b < |opts| && opts[a].value == dup.value && opts[b].value == dup.value
  {
    var seen: set<string> := {};
    var i := 0;
    while i < |opts|
      invariant 0 <= i <= |opts|
      invariant seen == set k | 0 <= k < i :: opts[k].value
      invariant ValuesDistinct(opts[..i])
    {
      if opts[i].value in seen {
        var a :| 0 <= a < i && opts[a].value == opts[i].value;
        return Some(opts[i].value);
      }
      seen := seen + {opts[i].value};
      i := i + 1;
      assert opts[..i] == opts[..i - 1] + [opts[i - 1]];
    }
    assert opts[..i] == opts;
    return None;
  }

  /** The tag and index field of an indexed value. */
  lemma IndexedValueFields(tag: char, index: int, id: string)
    requires tag != ':' && 0 <= index <= INT_MAX
    ensures var v := IndexedValue(tag, index, id);
      |v| >= 2 && v[0] == tag && SecondField(v, ':') == Some(IntToString(index))
      && ParseInt(IntToString(index)) == Some(index)
  {
    Scheduler.TaggedValueFields(tag, index, SafeValue(Some(id)));
  }

  /** Two indexed values with the same tag and different indexes differ. */
  lemma IndexedValuesDiffer(tag: char, i: int, j: int, id1: string, id2: string)
    requires tag != ':' && 0 <= i <= INT_MAX && 0 <= j <= INT_MAX && i != j
    ensures IndexedValue(tag, i, id1) != IndexedValue(tag, j, id2)
  {
    IndexedValueFields(tag, i, id1);
    IndexedValueFields(tag, j, id2);
  }

  /** Every option value starts with `tag`. */
  predicate AllTagged(os: seq<SelectOption>, tag: char) {
    forall k :: 0 <= k < |os| ==> |os[k].value| >= 1 && os[k].value[0] == tag
  }

  /** Two option lists, each free of repeats and tagged differently, concatenate free of repeats. */
  lemma ConcatDistinct(xs: seq<SelectOption>, ys: seq<SelectOption>, tx: set<char>, ty: set<char>)
    requires ValuesDistinct(xs) && ValuesDistinct(ys) && tx !! ty
    requires forall k :: 0 <= k < |xs| ==> |xs[k].value| >= 1 && xs[k].value[0] in tx
    requires forall k :: 0 <= k < |ys| ==> |ys[k].value| >= 1 && ys[k].value[0] in ty
    ensures ValuesDistinct(xs + ys)
    ensures forall k :: 0 <= k < |xs + ys| ==> |(xs + ys)[k].value| >= 1 && (xs + ys)[k].value[0] in tx + ty
  {
    var zs := xs + ys;
    forall a, b | 0 <= a < b < |zs| ensures zs[a].value != zs[b].value {
      if b < |xs| {
        assert zs[a] == xs[a] && zs[b] == xs[b];
      } else if |xs| <= a {
        assert zs[a] == ys[a - |xs|] && zs[b] == ys[b - |xs|];
      } else {
        assert zs[a] == xs[a] && zs[b] == ys[b - |xs|];
        assert zs[a].value[0] in tx && zs[b].value[0] in ty;
      }
    }
  }

  /** The history values carry distinct indexes behind the tag 'h'. */
  lemma HistoryValuesDistinct(h: seq<TrackView>, clean: string -> string)
    ensures ValuesDistinct(HistoryOptions(h, clean)) && AllTagged(HistoryOptions(h, clean), 'h')
  {
    var os := HistoryOptions(h, clean);
    forall a, b | 0 <= a < b < |os| ensures os[a].value != os[b].value {
      IndexedValuesDiffer('h', a, b, h[|h| - 1 - a].identifier, h[|h| - 1 - b].identifier);
    }
    forall k | 0 <= k < |os| ensures |os[k].value| >= 1 && os[k].value[0] == 'h' {
      IndexedValueFields('h', k, h[|h| - 1 - k].identifier);
    }
  }

  /** The queue values carry distinct indexes behind the tag 'q'. */
  lemma QueueValuesDistinct(q: seq<TrackView>, clean: string -> string)
    ensures ValuesDistinct(QueueOptions(q, clean)) && AllTagged(QueueOptions(q, clean), 'q')
  {
    var os := QueueOptions(q, clean);
    forall a, b | 0 <= a < b < |os| ensures os[a].value != os[b].value {
      IndexedValuesDiffer('q', a, b, q[a].identifier, q[b].identifier);
    }
    forall k | 0 <= k < |os| ensures |os[k].value| >= 1 && os[k].value[0] == 'q' {
      IndexedValueFields('q', k, q[k].identifier);
    }
  }

  /** Every value render emits is unique, so ensureUniqueValues never throws on render's own options. */
  lemma OptionsDistinct(view: PlayerView, clean: string -> string)
    ensures ValuesDistinct(Options(view, clean))
  {
    var hs, cs, qs := HistoryOptions(view.history, clean), CurrentOptions(view.currentTrack, clean), QueueOptions(view.queue, clean);
    HistoryValuesDistinct(view.history, clean);
    QueueValuesDistinct(view.queue, clean);
    assert AllTagged(cs, 'c');
    ConcatDistinct(hs, cs, {'h'}, {'c'});
    ConcatDistinct(hs + cs, qs, {'h', 'c'}, {'q'});
  }

  /** The loop of render that lists the history, most recent first. */
  method BuildHistoryOptions(history: seq<TrackView>, clean: string -> string) returns (options: seq<SelectOption>)
    ensures options == HistoryOptions(history, clean)
  {
    ghost var spec := HistoryOptions(history, clean);
    options := [];
    var i := 0;
    while i < Min(|history|, MaxHistoryOptions)
      invariant 0 <= i <= |spec|
      invariant options == spec[..i]
    {
      var o := HistoryOption(i, history[|history| - 1 - i], clean);
      assert o == spec[i];
      PrefixGrows(spec, i);
      options := options + [o];
      i := i + 1;
    }
    assert spec[..i] == spec;
  }

  /** The loop of render that lists the first upcoming tracks. */
  method BuildQueueOptions(queue: seq<TrackView>, clean: string -> string) returns (options: seq<SelectOption>)
    ensures options == QueueOptions(queue, clean)
  {
    ghost var spec := QueueOptions(queue, clean);
    options := [];
    var i := 0;
    while i < Min(|queue|, MaxQueueOptions)
      invariant 0 <= i <= |spec|
      invariant options == spec[..i]
    {
      var o := QueueOption(i, queue[i], clean);
      assert o == spec[i];
      PrefixGrows(spec, i);
      options := options + [o];
      i := i + 1;
    }
    assert spec[..i] == spec;
  }

  /**
   * render: with no history, current track or queue, the disabled menu with
   * the single "noop" option; otherwise the history, current and queue
   * options in that order, all values distinct. The IllegalStateException
   * of ensureUniqueValues is unreachable: the check always passes.
   */
  method Render(view: PlayerView, clean: string -> string) returns (menu: SelectMenu)
    ensures !HasContent(view) ==> menu == EmptyMenu
    ensures HasContent(view) ==> menu == SelectMenu(ComponentId, "Jump to a track...", false, Options(view, clean))
    ensures ValuesDistinct(menu.options)
  {
    if !HasContent(view) {
      return EmptyMenu;
    }
    var options := BuildHistoryOptions(view.history, clean);
    if view.currentTrack.Some? {
      options := options + [CurrentOption(view.currentTrack.value, clean)];
    }
    assert options == HistoryOptions(view.history, clean) + CurrentOptions(view.currentTrack, clean);
    var upcoming := BuildQueueOptions(view.queue, clean);
    options := options + upcoming;
    assert options == Options(view, clean);
    OptionsDistinct(view, clean);
    var dup := EnsureUniqueValues(options);
    assert dup.None?;
    return SelectMenu(ComponentId, "Jump to a track...", false, options);
  }

  /** The label and value of the i-th queue option, read off the view it shows. */
  lemma QueueOptionFields(q: seq<TrackView>, clean: string -> string, i: int)
    requires 0 <= i < |QueueOptions(q, clean)|
    ensures i < |q|
    ensures QueueOptions(q, clean)[i].labelText == Truncate(Some(IntToString(i + 1) + ". " + clean(q[i].title)), 100)
    ensures QueueOptions(q, clean)[i].value == "q:" + IntToString(i) + ":" + SafeValue(Some(q[i].identifier))
  {
    assert QueueOptions(q, clean)[i] == QueueOption(i, q[i], clean);
  }

  /** The label and value of the i-th history option, read off the view it shows. */
  lemma HistoryOptionFields(h: seq<TrackView>, clean: string -> string, i: int, k: int)
    requires 0 <= i < |HistoryOptions(h, clean)| && k == |h| - 1 - i
    ensures 0 <= k < |h|
    ensures HistoryOptions(h, clean)[i].labelText == Truncate(Some(clean(h[k].title)), 95)
    ensures HistoryOptions(h, clean)[i].value == "h:" + IntToString(i) + ":" + SafeValue(Some(h[k].identifier))
  {
    assert HistoryOptions(h, clean)[i] == HistoryOption(i, h[k], clean);
  }

  /** The view of a list entry shows that entry's identifier and title. */
  lemma ViewAt(ts: seq<LavalinkClient.Track>, k: int)
    requires 0 <= k < |ts|
    ensures |TrackViews(ts)| == |ts|
    ensures TrackViews(ts)[k].identifier == ts[k].identifier && TrackViews(ts)[k].title == ts[k].title
  {
    var v := TrackViews(ts)[k];
    assert v == ToTrackView(ts[k]);
  }

  /**
   * The i-th queue option, rendered from a scheduler's upcoming tracks,
   * shows the i-th upcoming track and jumps to exactly that track.
   */
  lemma QueueOptionJumps(tracks: seq<LavalinkClient.Track>, cursor: int, clean: string -> string, i: int)
    requires -1 <= cursor < |tracks| <= INT_MAX
    requires 0 <= i < |QueueOptions(TrackViews(QueueOf(tracks, cursor)), clean)|
    ensures cursor + 1 + i < |tracks|
    ensures var o := QueueOptions(TrackViews(QueueOf(tracks, cursor)), clean)[i];
      && o.labelText == Truncate(Some(IntToString(i + 1) + ". " + clean(tracks[cursor + 1 + i].title)), 100)
      && Scheduler.JumpTarget(tracks, cursor, o.value) == Scheduler.JumpTo(cursor + 1 + i)
  {
    var queue := QueueOf(tracks, cursor);
    QueueOptionFields(TrackViews(queue), clean, i);
    ViewAt(queue, i);
    QueueAt(tracks, cursor, i);
    Scheduler.QueueValueJumps(tracks, cursor, i, SafeValue(Some(tracks[cursor + 1 + i].identifier)));
  }

  /**
   * As written, the history option at position i shows the i-th most recent
   * track, at index cursor-1-i, but its value jumps to absolute index i.
   */
  lemma HistoryOptionJumpsMirrored(tracks: seq<LavalinkClient.Track>, cursor: int, clean: string -> string, i: int)
    requires 0 <= cursor < |tracks| <= INT_MAX
    requires 0 <= i < |HistoryOptions(TrackViews(HistoryOf(tracks, cursor)), clean)|
    ensures 0 <= cursor - 1 - i < cursor
    ensures var o := HistoryOptions(TrackViews(HistoryOf(tracks, cursor)), clean)[i];
      && o.labelText == Truncate(Some(clean(tracks[cursor - 1 - i].title)), 95)
      && Scheduler.JumpTarget(tracks, cursor, o.value) == Scheduler.JumpTo(i)
  {
    var history := HistoryOf(tracks, cursor);
    var h, k := TrackViews(history), cursor - 1 - i;
    assert |history| == cursor && history[k] == tracks[k];
    ViewAt(history, k);
    HistoryOptionFields(h, clean, i, k);
    var title, id := h[k].title, h[k].identifier;
    assert title == tracks[k].title && id == tracks[k].identifier;
    Scheduler.HistoryValueJumps(tracks, cursor, i, SafeValue(Some(tracks[k].identifier)));
  }

  /**
   * The discrepancy on the smallest input: with history [a, b] and current
   * c, the first option shows b, the most recent track, yet selecting it
   * jumps back to a.
   */
  lemma HistoryJumpMisses(a: LavalinkClient.Track, b: LavalinkClient.Track, c: LavalinkClient.Track, clean: string -> string)
    requires a.identifier != b.identifier
    ensures var o := HistoryOptions(TrackViews(HistoryOf([a, b, c], 2)), clean)[0];
      && o.labelText == Truncate(Some(clean(b.title)), 95)
      && Scheduler.JumpTarget([a, b, c], 2, o.value) == Scheduler.JumpTo(0)
      && [a, b, c][0] != b
  {
    HistoryOptionJumpsMirrored([a, b, c], 2, clean, 0);
  }

  /** The evidently intended option for the i-th most recent track: valued with its absolute index. */
  function CorrectedHistoryOption(h: seq<TrackView>, i: int, clean: string -> string): (o: SelectOption)
    requires 0 <= i < |h|
  {
    HistoryOption(|h| - 1 - i, h[|h| - 1 - i], clean)
  }

  /** The evidently intended history options: shown most recent first, but valued with the absolute index. */
  function CorrectedHistoryOptions(h: seq<TrackView>, clean: string -> string): (os: seq<SelectOption>)
    ensures |os| == Min(|h|, MaxHistoryOptions)
    ensures forall i :: 0 <= i < |os| ==> os[i] == CorrectedHistoryOption(h, i, clean)
  {
    seq(Min(|h|, MaxHistoryOptions), i requires 0 <= i < Min(|h|, MaxHistoryOptions) => CorrectedHistoryOption(h, i, clean))
  }

  /** The label and value of the i-th corrected history option, read off the view it shows. */
  lemma CorrectedHistoryOptionFields(h: seq<TrackView>, clean: string -> string, i: int, k: int)
    requires 0 <= i < |CorrectedHistoryOptions(h, clean)| && k == |h| - 1 - i
    ensures 0 <= k < |h|
    ensures CorrectedHistoryOptions(h, clean)[i].labelText == Truncate(Some(clean(h[k].title)), 95)
    ensures CorrectedHistoryOptions(h, clean)[i].value == "h:" + IntToString(k) + ":" + SafeValue(Some(h[k].identifier))
  {
    assert CorrectedHistoryOptions(h, clean)[i] == HistoryOption(k, h[k], clean);
  }

  /** With the corrected values, every history option jumps to the very track it shows. */
  lemma CorrectedHistoryOptionJumps(tracks: seq<LavalinkClient.Track>, cursor: int, clean: string -> string, i: int)
    requires 0 <= cursor < |tracks| <= INT_MAX
    requires 0 <= i < |CorrectedHistoryOptions(TrackViews(HistoryOf(tracks, cursor)), clean)|
    ensures 0 <= cursor - 1 - i < cursor
    ensures var o := CorrectedHistoryOptions(TrackViews(HistoryOf(tracks, cursor)), clean)[i];
      && o.labelText == Truncate(Some(clean(tracks[cursor - 1 - i].title)), 95)
      && Scheduler.JumpTarget(tracks, cursor, o.value) == Scheduler.JumpTo(cursor - 1 - i)
  {
    var history := HistoryOf(tracks, cursor);
    var h, k := TrackViews(history), cursor - 1 - i;
    assert |history| == cursor && history[k] == tracks[k];
    ViewAt(history, k);
    CorrectedHistoryOptionFields(h, clean, i, k);
    var title, id := h[k].title, h[k].identifier;
    assert title == tracks[k].title && id == tracks[k].identifier;
    Scheduler.HistoryValueJumps(tracks, cursor, k, SafeValue(Some(tracks[k].identifier)));
  }
}

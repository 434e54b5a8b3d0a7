/**
 * The backend tree's QueueDropdownRenderer: the "jump to a track" select
 * menu over a player's history, current item and queue. Unlike the src
 * renderer, every option's value is the bare track identifier, titles are
 * cut without an ellipsis, and the current track is marked through the
 * menu's default values. The regex title cleaner is the parameter `clean`.
 */
module BackendQueueDropdown {
  import opened Wrappers
  import opened JavaMath
  import opened JavaText
  import opened QueueView
  import opened BackendModel
  import opened JavaCollections
  import DomainTrackScheduler

  /** A JDA SelectOption as added by addOption(label, value, description). */
  datatype MenuOption = MenuOption(labelText: string, value: string, description: string)

  /** A JDA StringSelectMenu as a plain record; defaultValues are the values set by setDefaultValues. */
  datatype SelectMenu = SelectMenu(id: string, placeholder: string, disabled: bool,
                                   options: seq<MenuOption>, defaultValues: seq<string>)

  const Id: string := "player:queue-jump"
  const MaxHistoryOptions: int := 10
  const MaxQueueOptions: int := 14

  /** The disabled menu with the single "empty" option. */
  const EmptyMenu: SelectMenu :=
    SelectMenu(Id, "No tracks in queue or history!", true, [MenuOption("empty", "empty", "")], [])

  /** truncate: the first min(length, maxLength) characters, with no ellipsis. */
  function Truncate(text: string, maxLength: nat): (r: string)
    ensures |r| == Min(|text|, maxLength)
    ensures r <= text
    ensures r == text <==> |text| <= maxLength
  {
    text[..Min(|text|, maxLength)]
  }

  function HistoryOption(item: QueueItem, clean: string -> string): MenuOption {
    MenuOption(Truncate(clean(item.track.title), 95), item.track.identifier, "\U{23EA} Recently Played")
  }

  function CurrentOption(item: QueueItem, clean: string -> string): MenuOption {
    MenuOption(Truncate(clean(item.track.title), 95) + "  \U{2195}\U{FE0F}", item.track.identifier,
               "\U{25B6}\U{FE0F} Now Playing")
  }

  /** String.format("%d. %s", i + 1, cleanTitle(title)), cut to 100 characters. */
  function QueueOption(i: int, item: QueueItem, clean: string -> string): MenuOption {
    MenuOption(Truncate(IntToString(i + 1) + ". " + clean(item.track.title), 100), item.track.identifier,
               "\U{23E9} Up Next")
  }

  /** The history after Collections.reverse, cut to ten entries: the most recent first. */
  function HistoryOptions(history: seq<QueueItem>, clean: string -> string): (os: seq<MenuOption>)
    ensures |os| == Min(|history|, MaxHistoryOptions)
    ensures forall i :: 0 <= i < |os| ==> os[i] == HistoryOption(history[|history| - 1 - i], clean)
  {
    seq(Min(|history|, MaxHistoryOptions),
        i requires 0 <= i < Min(|history|, MaxHistoryOptions) => HistoryOption(history[|history| - 1 - i], clean))
  }

  function CurrentOptions(current: Option<QueueItem>, clean: string -> string): (os: seq<MenuOption>)
    ensures |os| == (if current.Some? then 1 else 0)
  {
    if current.Some? then [CurrentOption(current.value, clean)] else []
  }

  function QueueOptions(queue: seq<QueueItem>, clean: string -> string): (os: seq<MenuOption>)
    ensures |os| == Min(|queue|, MaxQueueOptions)
    ensures forall i :: 0 <= i < |os| ==> os[i] == QueueOption(i, queue[i], clean)
  {
    seq(Min(|queue|, MaxQueueOptions), i requires 0 <= i < Min(|queue|, MaxQueueOptions) => QueueOption(i, queue[i], clean))
  }

  /**
   * The options the builder holds after the three loops: never more than
   * the 25 a Discord select menu accepts, and at least one exactly when
   * there is a history, a current item or a queue.
   */
  function Options(history: seq<QueueItem>, current: Option<QueueItem>, queue: seq<QueueItem>,
                   clean: string -> string): (os: seq<MenuOption>)
    ensures |os| == Min(|history|, MaxHistoryOptions) + (if current.Some? then 1 else 0) + Min(|queue|, MaxQueueOptions)
    ensures |os| <= 25
    ensures os != [] <==> HasContent(history, current, queue)
  {
    HistoryOptions(history, clean) + CurrentOptions(current, clean) + QueueOptions(queue, clean)
  }

  predicate HasContent(history: seq<QueueItem>, current: Option<QueueItem>, queue: seq<QueueItem>) {
    history != [] || current.Some? || queue != []
  }

  /** The default values: the current track's identifier when there is one. */
  function Defaults(current: Option<QueueItem>): seq<string> {
    if current.Some? then [current.value.track.identifier] else []
  }

  /** The loop of render over the reversed history. */
  method AddHistoryOptions(history: seq<QueueItem>, clean: string -> string) returns (options: seq<MenuOption>)
    ensures options == HistoryOptions(history, clean)
  {
    ghost var spec := HistoryOptions(history, clean);
    var reversed := seq(|history|, k requires 0 <= k < |history| => history[|history| - 1 - k]);
    options := [];
    var i := 0;
    while i < Min(|reversed|, MaxHistoryOptions)
      invariant 0 <= i <= |spec|
      invariant options == spec[..i]
    {
      var o := HistoryOption(reversed[i], clean);
      assert reversed[i] == history[|history| - 1 - i];
      assert o == spec[i];
      PrefixGrows(spec, i);
      options := options + [o];
      i := i + 1;
    }
    assert spec[..i] == spec;
  }

  /** The loop of render over the first upcoming items. */
  method AddQueueOptions(queue: seq<QueueItem>, clean: string -> string) returns (options: seq<MenuOption>)
    ensures options == QueueOptions(queue, clean)
  {
    ghost var spec := QueueOptions(queue, clean);
    options := [];
    var i := 0;
    while i < Min(|queue|, MaxQueueOptions)
      invariant 0 <= i <= |spec|
      invariant options == spec[..i]
    {
      var o := QueueOption(i, queue[i], clean);
      assert o == spec[i];
      PrefixGrows(spec, i);
      options := options + [o];
      i := i + 1;
    }
    assert spec[..i] == spec;
  }

  /**
   * render: the disabled "empty" menu when there is no history, current
   * item or queue; otherwise the history, current and queue options in that
   * order, with the current track's identifier as the default value. The
   * second "empty" fallback, taken when the builder holds no option after
   * the loops, is unreachable.
   */
  method Render(history: seq<QueueItem>, current: Option<QueueItem>, queue: seq<QueueItem>, clean: string -> string)
    returns (menu: SelectMenu)
    ensures !HasContent(history, current, queue) ==> menu == EmptyMenu
    ensures HasContent(history, current, queue) ==>
      menu == SelectMenu(Id, "Jump to a track...", false, Options(history, current, queue, clean), Defaults(current))
  {
    if !HasContent(history, current, queue) {
      return EmptyMenu;
    }
    var options := AddHistoryOptions(history, clean);
    ghost var hs := options;
    var defaults := [];
    if current.Some? {
      options := options + [CurrentOption(current.value, clean)];
      defaults := [current.value.track.identifier];
    }
    assert options == hs + CurrentOptions(current, clean);
    var upcoming := AddQueueOptions(queue, clean);
    options := options + upcoming;
    assert options == Options(history, current, queue, clean);
    if options == [] {
      // the fallback menu: never reached
      assert false;
    }
    return SelectMenu(Id, "Jump to a track...", false, options, defaults);
  }

  /** The values of a list of options, in order. */
  function Values(os: seq<MenuOption>): (vs: seq<string>)
    ensures |vs| == |os|
    ensures forall k :: 0 <= k < |os| ==> vs[k] == os[k].value
  {
    seq(|os|, k requires 0 <= k < |os| => os[k].value)
  }

  /** The identifiers of a list of items, in order. */
  function Identifiers(items: seq<QueueItem>): (ids: seq<string>)
    ensures |ids| == |items|
    ensures forall k :: 0 <= k < |items| ==> ids[k] == items[k].track.identifier
  {
    seq(|items|, k requires 0 <= k < |items| => items[k].track.identifier)
  }

  /**
   * The option values are the identifiers of the shown items and nothing
   * else: the last ten history items from the most recent back, the
   * current item, then the first fourteen queued items.
   */
  lemma ValuesAreIdentifiers(history: seq<QueueItem>, current: Option<QueueItem>, queue: seq<QueueItem>,
                             clean: string -> string)
    ensures var n := Min(|history|, MaxHistoryOptions);
      Values(Options(history, current, queue, clean))
      == Identifiers(seq(n, k requires 0 <= k < n => history[|history| - 1 - k]))
         + Defaults(current)
         + Identifiers(queue[..Min(|queue|, MaxQueueOptions)])
  {
    var hs, cs, qs := HistoryOptions(history, clean), CurrentOptions(current, clean), QueueOptions(queue, clean);
    var n := Min(|history|, MaxHistoryOptions);
    var lhs := Values(hs + cs + qs);
    var rhs := Identifiers(seq(n, k requires 0 <= k < n => history[|history| - 1 - k]))
               + Defaults(current) + Identifiers(queue[..Min(|queue|, MaxQueueOptions)]);
    assert |lhs| == |rhs|;
    forall k | 0 <= k < |lhs| ensures lhs[k] == rhs[k] {
      if k < |hs| {
        assert (hs + cs + qs)[k] == hs[k];
      } else if k < |hs| + |cs| {
        assert (hs + cs + qs)[k] == cs[k - |hs|];
      } else {
        assert (hs + cs + qs)[k] == qs[k - |hs| - |cs|];
      }
    }
  }

  /** The default value is the value of the "Now Playing" option, which sits right after the history options. */
  lemma DefaultIsCurrentOption(history: seq<QueueItem>, current: Option<QueueItem>, queue: seq<QueueItem>,
                               clean: string -> string)
    requires current.Some?
    ensures var os := Options(history, current, queue, clean);
      var k := Min(|history|, MaxHistoryOptions);
      k < |os| && os[k] == CurrentOption(current.value, clean) && Defaults(current) == [os[k].value]
  {
    var os := Options(history, current, queue, clean);
    var k := Min(|history|, MaxHistoryOptions);
    assert os[k] == CurrentOptions(current, clean)[0];
  }

  /** A decimal of 1 to 14 has one or two digits. */
  lemma SmallDecimal(n: int)
    requires 1 <= n <= 14
    ensures |IntToString(n)| <= 2
  {
    if n >= 10 {
      assert IntToString(n) == NatToString(n / 10) + [DigitChar(n % 10)];
    }
  }

  /**
   * Every queue option's label starts with its position counted from 1, a
   * dot and a space, and no label is longer than the 100 characters Discord
   * allows; history labels keep at most 95 characters of the title.
   */
  lemma LabelsNumberedAndBounded(history: seq<QueueItem>, queue: seq<QueueItem>, clean: string -> string)
    ensures forall i :: 0 <= i < |QueueOptions(queue, clean)| ==>
      StartsWith(QueueOptions(queue, clean)[i].labelText, IntToString(i + 1) + ". ")
      && |QueueOptions(queue, clean)[i].labelText| <= 100
    ensures forall i :: 0 <= i < |HistoryOptions(history, clean)| ==>
      |HistoryOptions(history, clean)[i].labelText| <= 95
      && HistoryOptions(history, clean)[i].labelText <= clean(history[|history| - 1 - i].track.title)
  {
    forall i | 0 <= i < |QueueOptions(queue, clean)|
      ensures StartsWith(QueueOptions(queue, clean)[i].labelText, IntToString(i + 1) + ". ")
    {
      var prefix := IntToString(i + 1) + ". ";
      var numbered := prefix + clean(queue[i].track.title);
      SmallDecimal(i + 1);
      assert QueueOptions(queue, clean)[i].labelText == Truncate(numbered, 100);
      assert numbered[..|prefix|] == prefix;
    }
  }

  /**
   * Selecting a queue option jumps, through findTrackIndex, to the shown
   * item when its identifier occurs nowhere earlier in the scheduler's
   * list; otherwise it jumps to the earliest item with that identifier.
   */
  lemma QueueOptionTarget(items: seq<QueueItem>, cursor: int, clean: string -> string, i: int)
    requires -1 <= cursor < |items|
    requires 0 <= i < |QueueOptions(QueueOf(items, cursor), clean)|
    ensures cursor + 1 + i < |items|
    ensures var v := QueueOptions(QueueOf(items, cursor), clean)[i].value;
      var target := DomainTrackScheduler.FindIndex(items, v);
      0 <= target <= cursor + 1 + i && items[target].track.identifier == v
      && (target == cursor + 1 + i <==> forall k :: 0 <= k < cursor + 1 + i ==> items[k].track.identifier != v)
  {
    QueueAt(items, cursor, i);
  }

  /**
   * The smallest instance of a repeated track: with a played and a queued
   * item that share an identifier, the menu holds two options with the same
   * value, and selecting the queued one jumps back to the played one.
   */
  lemma RepeatedTrackJumpsBack(played: QueueItem, current: QueueItem, queued: QueueItem, clean: string -> string)
    requires played.track.identifier == queued.track.identifier
    ensures var os := Options([played], Some(current), [queued], clean);
      |os| == 3 && os[0].value == os[2].value
      && DomainTrackScheduler.FindIndex([played, current, queued], os[2].value) == 0
  {
    var os := Options([played], Some(current), [queued], clean);
    assert os[0] == HistoryOption(played, clean);
    assert os[2] == QueueOptions([queued], clean)[0];
    assert [played, current, queued][0].track.identifier == os[2].value;
  }
}

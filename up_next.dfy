/**
 * The src tree's UpNextFieldRenderer: an "Up Next" field listing the first
 * three queued titles, numbered from 1, and how many more follow. The
 * title-cleaning regular expression is not modelled; it is the parameter
 * `clean`. The line separator "%n" is "\n".
 */
module SrcUpNext {
  import opened Wrappers
  import opened JavaMath
  import opened JavaText
  import opened Panel
  import PlayerViewMapper

  const TracksToShow: nat := 3

  /** String.format("`%d.` %s%n", index + 1, cleanTitle(title)) */
  function Line(index: nat, cleaned: string): string {
    "`" + IntToString(index + 1) + ".` " + cleaned + "\n"
  }

  /** The first n lines, for the first n titles. */
  function Lines(titles: seq<string>, clean: string -> string, n: nat): string
    requires n <= |titles|
  {
    if n == 0 then "" else Lines(titles, clean, n - 1) + Line(n - 1, clean(titles[n - 1]))
  }

  /** The text after the listed lines when more than three titles are queued. */
  function More(count: int): string {
    "...and " + IntToString(count - TracksToShow) + " more"
  }

  /** The field's text for a queue whose titles are titles. */
  function UpNextText(titles: seq<string>, clean: string -> string): string {
    Lines(titles, clean, Min(|titles|, TracksToShow))
      + (if |titles| > TracksToShow then More(|titles|) else "")
  }

  /** The titles of the queued tracks, in queue order. */
  function Titles(queue: seq<PlayerViewMapper.TrackView>): (titles: seq<string>)
    ensures |titles| == |queue|
    ensures forall k :: 0 <= k < |queue| ==> titles[k] == queue[k].title
  {
    seq(|queue|, k requires 0 <= k < |queue| => queue[k].title)
  }

  /** render: no field for an empty queue; otherwise the lines are appended in a counted loop. */
  method Render(view: PlayerViewMapper.PlayerView, clean: string -> string) returns (field: Option<EmbedField>)
    ensures view.queue == [] ==> field.None?
    ensures view.queue != [] ==> field == Some(EmbedField("Up Next", UpNextText(Titles(view.queue), clean), false))
  {
    if view.queue == [] {
      return None;
    }
    var builder := "";
    var index := 0;
    while index < Min(|view.queue|, TracksToShow)
      invariant 0 <= index <= Min(|view.queue|, TracksToShow)
      invariant builder == Lines(Titles(view.queue), clean, index)
    {
      var track := view.queue[index];
      builder := builder + Line(index, clean(track.title));
      index := index + 1;
    }
    if |view.queue| > TracksToShow {
      builder := builder + More(|view.queue|);
    } else {
      assert builder == builder + "";
    }
    field := Some(EmbedField("Up Next", builder, false));
  }

  /** How many times c occurs in s. */
  function Count(s: string, c: char): nat {
    if s == [] then 0 else Count(s[..|s| - 1], c) + (if s[|s| - 1] == c then 1 else 0)
  }

  lemma {:induction false} CountAppend(a: string, b: string, c: char)
    ensures Count(a + b, c) == Count(a, c) + Count(b, c)
  {
    if b != [] {
      assert (a + b)[..|a + b| - 1] == a + b[..|b| - 1];
      CountAppend(a, b[..|b| - 1], c);
    } else {
      assert a + b == a;
    }
  }

  lemma {:induction false} CountAbsent(s: string, c: char)
    requires forall k :: 0 <= k < |s| ==> s[k] != c
    ensures Count(s, c) == 0
  {
    if s != [] {
      CountAbsent(s[..|s| - 1], c);
    }
  }

  lemma DecimalNoNewline(n: int)
    ensures forall k :: 0 <= k < |IntToString(n)| ==> IntToString(n)[k] != '\n'
  {
    var d := NatToString(if n < 0 then -n else n);
    assert forall k :: 0 <= k < |d| ==> IsDigit(d[k]);
  }

  /** Each line holds exactly one line break, at its end, when the cleaned title holds none. */
  lemma LineBreaks(index: nat, cleaned: string)
    requires forall k :: 0 <= k < |cleaned| ==> cleaned[k] != '\n'
    ensures Count(Line(index, cleaned), '\n') == 1
    ensures Line(index, cleaned)[|Line(index, cleaned)| - 1] == '\n'
  {
    var number := IntToString(index + 1);
    DecimalNoNewline(index + 1);
    var head := "`" + number + ".` " + cleaned;
    assert Line(index, cleaned) == head + "\n";
    CountAbsent(head, '\n');
    CountAppend(head, "\n", '\n');
  }

  /** n lines hold n line breaks. */
  lemma {:induction false} LinesBreaks(titles: seq<string>, clean: string -> string, n: nat)
    requires n <= |titles|
    requires forall t :: t in titles ==> forall k :: 0 <= k < |clean(t)| ==> clean(t)[k] != '\n'
    ensures Count(Lines(titles, clean, n), '\n') == n
    ensures n > 0 ==> Lines(titles, clean, n)[|Lines(titles, clean, n)| - 1] == '\n'
  {
    if n > 0 {
      LinesBreaks(titles, clean, n - 1);
      LineBreaks(n - 1, clean(titles[n - 1]));
      CountAppend(Lines(titles, clean, n - 1), Line(n - 1, clean(titles[n - 1])), '\n');
    }
  }

  /**
   * When no cleaned title holds a line break, the field lists exactly
   * min(size, 3) lines, and it ends with a line break exactly when no
   * "...and N more" follows them, that is when at most three titles are
   * queued.
   */
  lemma UpNextShape(titles: seq<string>, clean: string -> string)
    requires titles != []
    requires forall t :: t in titles ==> forall k :: 0 <= k < |clean(t)| ==> clean(t)[k] != '\n'
    ensures Count(UpNextText(titles, clean), '\n') == Min(|titles|, TracksToShow)
    ensures UpNextText(titles, clean)[|UpNextText(titles, clean)| - 1] == '\n' <==> |titles| <= TracksToShow
  {
    var n := Min(|titles|, TracksToShow);
    var lines := Lines(titles, clean, n);
    LinesBreaks(titles, clean, n);
    if |titles| > TracksToShow {
      var more := More(|titles|);
      var number := IntToString(|titles| - TracksToShow);
      DecimalNoNewline(|titles| - TracksToShow);
      assert more == "...and " + number + " more";
      CountAbsent(more, '\n');
      CountAppend(lines, more, '\n');
      assert UpNextText(titles, clean) == lines + more;
    } else {
      assert lines + "" == lines;
      assert UpNextText(titles, clean) == lines;
    }
  }

  /** The k-th listed line (k < 3) is numbered k + 1 and shows the k-th cleaned title. */
  lemma {:induction false} UpNextListsInOrder(titles: seq<string>, clean: string -> string, k: nat)
    requires k < Min(|titles|, TracksToShow)
    ensures Lines(titles, clean, k) + Line(k, clean(titles[k])) <= UpNextText(titles, clean)
  {
    var n := Min(|titles|, TracksToShow);
    LinesPrefix(titles, clean, k + 1, n);
    var rest := if |titles| > TracksToShow then More(|titles|) else "";
    assert Lines(titles, clean, n) <= Lines(titles, clean, n) + rest;
  }

  /** Fewer lines are a prefix of more lines. */
  lemma {:induction false} LinesPrefix(titles: seq<string>, clean: string -> string, m: nat, n: nat)
    requires m <= n <= |titles|
    ensures Lines(titles, clean, m) <= Lines(titles, clean, n)
  {
    if m < n {
      LinesPrefix(titles, clean, m, n - 1);
    }
  }
}

/**
 * The backend tree's UpNextFieldRenderer: the same text over the titles of
 * the queued items' tracks, with "\n" written out.
 */
module BackendUpNext {
  import opened Wrappers
  import opened JavaMath
  import opened Panel
  import BackendModel
  import SrcUpNext

  /** The titles of the queued items' tracks, in queue order (map(QueueItem::track)). */
  function Titles(queue: seq<BackendModel.QueueItem>): (titles: seq<string>)
    ensures |titles| == |queue|
    ensures forall k :: 0 <= k < |queue| ==> titles[k] == queue[k].track.title
  {
    seq(|queue|, k requires 0 <= k < |queue| => queue[k].track.title)
  }

  /** render: no field for an empty queue; otherwise the same text as the src renderer. */
  method Render(queue: seq<BackendModel.QueueItem>, clean: string -> string) returns (field: Option<EmbedField>)
    ensures queue == [] ==> field.None?
    ensures queue != [] ==> field == Some(EmbedField("Up Next", SrcUpNext.UpNextText(Titles(queue), clean), false))
  {
    var tracks := Titles(queue);
    if tracks == [] {
      return None;
    }
    var upNext := "";
    var i := 0;
    while i < Min(|tracks|, SrcUpNext.TracksToShow)
      invariant 0 <= i <= Min(|tracks|, SrcUpNext.TracksToShow)
      invariant upNext == SrcUpNext.Lines(tracks, clean, i)
    {
      upNext := upNext + SrcUpNext.Line(i, clean(tracks[i]));
      i := i + 1;
    }
    if |tracks| > SrcUpNext.TracksToShow {
      upNext := upNext + SrcUpNext.More(|tracks|);
    } else {
      assert upNext == upNext + "";
    }
    field := Some(EmbedField("Up Next", upNext, false));
  }
}

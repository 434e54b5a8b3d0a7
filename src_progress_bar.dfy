/**
 * The src tree's ProgressBarRenderer: a bar of 15 glyphs with one head for
 * the playing track, followed by the position and length as clocks.
 */
module SrcProgressBar {
  import opened Wrappers
  import opened JavaMath
  import opened JavaText
  import opened DurationFormat
  import opened Panel
  import PlayerViewMapper

  const BarLength: int := 15

  /** The head's slot: BAR_LENGTH * position / total rounded toward zero, held to 0..14. */
  function HeadIndex(positionMillis: int, totalMillis: int): (i: int)
    requires totalMillis > 0
    ensures 0 <= i < BarLength
    ensures 0 <= positionMillis < totalMillis ==> i == BarLength * positionMillis / totalMillis
    ensures positionMillis >= totalMillis ==> i == BarLength - 1
    ensures positionMillis <= 0 ==> i == 0
  {
    ScaledDivRange(BarLength, positionMillis, totalMillis);
    Min(BarLength - 1, Max(0, JavaDiv(BarLength * positionMillis, totalMillis)))
  }

  /** The head never moves back while the position moves forward. */
  lemma HeadIndexMonotone(p: int, q: int, totalMillis: int)
    requires totalMillis > 0 && p <= q
    ensures HeadIndex(p, totalMillis) <= HeadIndex(q, totalMillis)
  {
    JavaDivMonotone(BarLength * p, BarLength * q, totalMillis);
  }

  /** buildBar: the live-stream text for a length of zero or less, otherwise the units, the head and the rest of the units. */
  function BuildBar(positionMillis: int, totalMillis: int): string {
    if totalMillis <= 0 then LiveStream
    else
      var head := HeadIndex(positionMillis, totalMillis);
      Repeat([BarUnit], head) + [BarHead] + Repeat([BarUnit], Max(0, BarLength - head - 1))
  }

  /** A bar for a positive length is 15 glyphs with the head at HeadIndex and units everywhere else. */
  lemma BuildBarShape(positionMillis: int, totalMillis: int)
    requires totalMillis > 0
    ensures BuildBar(positionMillis, totalMillis) == BarGlyphs(HeadIndex(positionMillis, totalMillis), 15)
  {
    var head := HeadIndex(positionMillis, totalMillis);
    var bar := BuildBar(positionMillis, totalMillis);
    var left, right := Repeat([BarUnit], head), Repeat([BarUnit], BarLength - head - 1);
    assert bar == left + [BarHead] + right;
    assert |bar| == 15;
    forall k | 0 <= k < 15
      ensures bar[k] == BarGlyphs(head, 15)[k]
    {
      if k < head {
        assert bar[k] == left[k];
      } else if k > head {
        assert bar[k] == right[k - head - 1];
      }
    }
  }

  /** format: the padded clock of the length, a negative length counting as zero. */
  function Format(millis: int): string {
    PaddedClock(Max(0, millis))
  }

  /** A formatted length reads back as its whole seconds, and as zero for a negative length. */
  lemma FormatReadsBack(millis: int)
    requires Hours(Max(0, millis)) <= INT_MAX
    ensures ClockValue(Format(millis)) == Some(Max(0, millis) / 1000)
  {
    PaddedClockReadsBack(Max(0, millis));
    PartsSum(Max(0, millis));
  }

  /**
   * render: a field named by a zero-width space only when there is a current
   * track, holding the bar, a line break, and the position and length clocks;
   * a negative position counts as zero.
   */
  function Render(view: PlayerViewMapper.PlayerView): (field: Option<EmbedField>)
    ensures field.Some? <==> view.currentTrack.Some?
    ensures field.Some? ==> field.value.name == "\U{200B}" && !field.value.inline
  {
    if view.currentTrack.None? then None
    else
      var duration := view.currentTrack.value.lengthMillis;
      var position := Max(0, view.positionMillis);
      Some(EmbedField("\U{200B}", BuildBar(position, duration) + "\n" + Format(position) + " / " + Format(duration), false))
  }

  /**
   * For a track with a positive length the field's first line is the
   * 15-glyph bar with its head at the clamped position, and its second line
   * starts with that position's clock.
   */
  lemma RenderShowsPosition(view: PlayerViewMapper.PlayerView)
    requires view.currentTrack.Some? && view.currentTrack.value.lengthMillis > 0
    ensures var position := Max(0, view.positionMillis);
      var value := Render(view).value.value;
      && value[..16] == BarGlyphs(HeadIndex(position, view.currentTrack.value.lengthMillis), 15) + "\n"
      && value[16..16 + |Format(position)|] == Format(position)
  {
    var position := Max(0, view.positionMillis);
    var duration := view.currentTrack.value.lengthMillis;
    BuildBarShape(position, duration);
    var bar := BuildBar(position, duration);
    var value := Render(view).value.value;
    assert value == (bar + "\n") + Format(position) + (" / " + Format(duration));
  }
}

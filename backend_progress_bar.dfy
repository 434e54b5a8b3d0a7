/**
 * The backend tree's ProgressBarRenderer: a bracketed bar of 20 glyphs for
 * the playing track, then the position and length as padded clocks.
 */
module BackendProgressBar {
  import opened Wrappers
  import opened JavaMath
  import opened DurationFormat
  import opened Panel

  const BarLen: int := 20

  /** The head's slot, BAR_LEN * position / total rounded toward zero; it may lie off the bar. */
  function HeadPosition(pos: int, total: int): (p: int)
    requires total > 0
    ensures 0 <= pos < total ==> 0 <= p < BarLen
    ensures pos >= total ==> p >= BarLen
    ensures pos < 0 ==> p <= 0
  {
    ScaledDivRange(BarLen, pos, total);
    JavaDiv(BarLen * pos, total)
  }

  /** The text build returns: the live-stream text, or "[" + the glyphs + "] " + position clock + "/" + length clock. */
  function BarText(pos: int, total: int): string {
    if total <= 0 then LiveStream
    else "[" + BarGlyphs(HeadPosition(pos, total), 20) + Tail(pos, total)
  }

  /** What follows the glyphs: the closing bracket, a space, the position clock, a slash and the length clock. */
  function Tail(pos: int, total: int): string {
    "] " + PaddedClock(pos) + "/" + PaddedClock(total)
  }

  /**
   * For a positive length the text opens with 20 glyphs between brackets
   * (BarGlyphsHead: a head among them exactly when the slot lies on the
   * bar); at or after the end of the track all 20 are units.
   */
  lemma BarTextHead(pos: int, total: int)
    requires total > 0
    ensures var text := BarText(pos, total);
      && |text| >= 22 && text[0] == '[' && text[21] == ']'
      && text[1..21] == BarGlyphs(HeadPosition(pos, total), 20)
    ensures pos >= total ==> forall k :: 1 <= k < 21 ==> BarText(pos, total)[k] == BarUnit
  {
    var glyphs := BarGlyphs(HeadPosition(pos, total), 20);
    var text := BarText(pos, total);
    assert text[1..21] == glyphs;
    assert forall k :: 1 <= k < 21 ==> text[k] == glyphs[k - 1];
  }

  /** build: the glyphs are appended one by one in a counted loop. */
  method Build(pos: int, total: int) returns (text: string)
    ensures text == BarText(pos, total)
  {
    if total <= 0 {
      return LiveStream;
    }
    var p := JavaDiv(BarLen * pos, total);
    var tail := "] " + PaddedClock(pos) + "/" + PaddedClock(total);
    assert tail == Tail(pos, total);
    text := AppendBarGlyphs("[", p, BarLen);
    text := text + tail;
  }

  /** render: a "Progress" field exactly when a track is playing, holding its bar at the player's position. */
  method Render(player: PlayerSnapshot) returns (field: Option<EmbedField>)
    ensures field.Some? <==> player.currentlyPlaying.Some?
    ensures field.Some? ==>
      field.value == EmbedField("Progress", BarText(player.trackPosition, player.currentlyPlaying.value.durationMillis), false)
  {
    if player.currentlyPlaying.None? {
      return None;
    }
    var bar := Build(player.trackPosition, player.currentlyPlaying.value.durationMillis);
    return Some(EmbedField("Progress", bar, false));
  }
}

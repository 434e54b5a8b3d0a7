/**
 * The backend tree's PlayerEmbedFactory: the player embed (title, link,
 * description, colour, thumbnail and a progress field), its progress bar
 * and its control buttons.
 */
module PlayerEmbedFactory {
  import opened Wrappers
  import opened JavaMath
  import opened DurationFormat
  import opened Panel
  import Common
  import BackendControls
  import BackendProgressBar

  /** The parts of a MessageEmbed that build sets. */
  datatype Embed = Embed(
    title: string,
    url: Option<string>,
    description: string,
    color: int,
    thumbnail: Option<string>,
    fields: seq<EmbedField>)

  const IdleColor: int := 0x3498db
  const PlayingColor: int := 0x2ecc71

  /** The bar shown with no current track: 20 en dashes between "`[" and "]`". */
  const EmptyBar: string := "`[\U{2013}\U{2013}\U{2013}\U{2013}\U{2013}\U{2013}\U{2013}\U{2013}\U{2013}\U{2013}\U{2013}\U{2013}\U{2013}\U{2013}\U{2013}\U{2013}\U{2013}\U{2013}\U{2013}\U{2013}]`"

  /**
   * The text buildProgressBar returns: the empty bar with no current track,
   * the live-stream text for a length of zero or less, and otherwise
   * "`[" + 20 glyphs with the head at 20 * position / length + "]` `" +
   * position clock + "/" + length clock + "`".
   */
  function ProgressBarText(player: PlayerSnapshot): string {
    if player.currentlyPlaying.None? then EmptyBar
    else
      var total := player.currentlyPlaying.value.durationMillis;
      if total <= 0 then LiveStream
      else PlayingBarText(player.trackPosition, total)
  }

  /** The bar for a track with a positive length. */
  function PlayingBarText(pos: int, total: int): string
    requires total > 0
  {
    "`[" + BarGlyphs(BackendProgressBar.HeadPosition(pos, total), 20) + ClockText(pos, total)
  }

  /** What follows the glyphs: "]` `", the position clock, "/", the length clock and "`". */
  function ClockText(pos: int, total: int): string {
    "]` `" + PaddedClock(pos) + "/" + PaddedClock(total) + "`"
  }

  /** buildProgressBar: the empty bar, the live-stream text, or the bar of a playing track. */
  method BuildProgressBar(player: PlayerSnapshot) returns (text: string)
    ensures text == ProgressBarText(player)
  {
    if player.currentlyPlaying.None? {
      return EmptyBar;
    }
    var currentPosition := player.trackPosition;
    var totalDuration := player.currentlyPlaying.value.durationMillis;
    if totalDuration <= 0 {
      return LiveStream;
    }
    text := BuildPlayingBar(currentPosition, totalDuration);
  }

  /** The glyphs are appended one by one in a counted loop, then the two clocks. */
  method BuildPlayingBar(currentPosition: int, totalDuration: int) returns (text: string)
    requires totalDuration > 0
    ensures text == PlayingBarText(currentPosition, totalDuration)
  {
    var barLength := 20;
    var progress := JavaDiv(20 * currentPosition, totalDuration);
    assert progress == BackendProgressBar.HeadPosition(currentPosition, totalDuration);
    text := AppendBarGlyphs("`[", progress, barLength);
    var tail := "]` `" + PaddedClock(currentPosition) + "/" + PaddedClock(totalDuration) + "`";
    text := text + tail;
  }

  /**
   * The factory's bar and the backend ProgressBarRenderer's bar put the head
   * on the same glyph: their 20 glyphs are identical.
   */
  lemma BarsAgree(player: PlayerSnapshot)
    requires player.currentlyPlaying.Some? && player.currentlyPlaying.value.durationMillis > 0
    ensures var total := player.currentlyPlaying.value.durationMillis;
      ProgressBarText(player)[2..22] == BackendProgressBar.BarText(player.trackPosition, total)[1..21]
  {
    var total := player.currentlyPlaying.value.durationMillis;
    var glyphs := BarGlyphs(BackendProgressBar.HeadPosition(player.trackPosition, total), 20);
    assert ProgressBarText(player)[2..22] == glyphs;
    BackendProgressBar.BarTextHead(player.trackPosition, total);
  }

  /**
   * build: with no current track a blue idle embed and no field; otherwise a
   * green embed titled and linked by the track, described by its author,
   * with its thumbnail when it has one and a single "Progress" field.
   */
  method Build(player: PlayerSnapshot) returns (embed: Embed)
    ensures player.currentlyPlaying.None? ==>
      embed == Embed("No track playing", None, "Use `/play` to add a song to the queue!", IdleColor, None, [])
    ensures player.currentlyPlaying.Some? ==>
      var track := player.currentlyPlaying.value;
      && embed.title == "Now Playing: " + track.title && embed.url == Some(track.sourceUrl)
      && embed.description == "by " + track.author && embed.color == PlayingColor
      && embed.thumbnail == track.thumbnailUrl
      && embed.fields == [EmbedField("Progress", ProgressBarText(player), false)]
  {
    if player.currentlyPlaying.None? {
      return Embed("No track playing", None, "Use `/play` to add a song to the queue!", IdleColor, None, []);
    }
    var currentTrack := player.currentlyPlaying.value;
    var thumbnail: Option<string> := None;
    if currentTrack.thumbnailUrl.Some? {
      thumbnail := currentTrack.thumbnailUrl;
    }
    var bar := BuildProgressBar(player);
    embed := Embed("Now Playing: " + currentTrack.title, Some(currentTrack.sourceUrl), "by " + currentTrack.author,
                   PlayingColor, thumbnail, [EmbedField("Progress", bar, false)]);
  }

  /** buildButtons: previous, then pause when PLAYING or resume otherwise, then skip and stop, appended in order. */
  method BuildButtons(player: PlayerSnapshot) returns (buttons: seq<Button>)
    ensures buttons == BackendControls.Buttons(player)
  {
    var state := player.state;
    buttons := [];
    buttons := buttons + [Button(Secondary, "player:previous", PREVIOUS)];
    if state == Common.PLAYING {
      buttons := buttons + [Button(Primary, "player:pause", PAUSE)];
    } else {
      buttons := buttons + [Button(Success, "player:resume", PLAY)];
    }
    buttons := buttons + [Button(Secondary, "player:skip", SKIP)];
    buttons := buttons + [Button(Danger, "player:stop", STOP)];
  }
}

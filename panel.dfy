/**
 * The pieces of a Discord player panel as the renderers build them: embed
 * fields, buttons, and the glyphs both trees draw with (their UiConstants
 * classes hold the same button glyphs). JDA's builders are not modelled;
 * a field or a button is a plain record.
 */
module Panel {
  import opened Wrappers
  import Common
  import BackendModel

  /** EmbedBuilder.addField(name, value, inline) */
  datatype EmbedField = EmbedField(name: string, value: string, inline: bool)

  datatype ButtonStyle = Primary | Secondary | Success | Danger

  /** Button.primary/secondary/success/danger(id, label) */
  datatype Button = Button(style: ButtonStyle, id: string, labelText: string)

  /**
   * What the backend renderers read from the player they draw:
   * getState, getCurrentlyPlaying, getCurrentItem, getTrackPosition and
   * getQueue, each as the value it returns.
   */
  datatype PlayerSnapshot = PlayerSnapshot(
    state: Common.PlayerState,
    currentlyPlaying: Option<BackendModel.Track>,
    currentItem: Option<BackendModel.QueueItem>,
    trackPosition: int,
    queue: seq<BackendModel.QueueItem>)

  /** The bar unit "▬" and the bar head "🔘". */
  const BarUnit: char := '\U{25AC}'
  const BarHead: char := '\U{1F518}'

  /** "🔴 Live Stream", shown instead of a bar for a track without a length. */
  const LiveStream: string := "\U{1F534} Live Stream"

  /** UiConstants: the button glyphs. */
  const PREVIOUS: string := "\U{23EE}\U{FE0F}"
  const PLAY: string := "\U{25B6}\U{FE0F}"
  const PAUSE: string := "\U{23F8}\U{FE0F}"
  const SKIP: string := "\U{23ED}\U{FE0F}"
  const STOP: string := "\U{23F9}\U{FE0F}"
  const SHUFFLE: string := "\U{1F500}"
  const REPEAT: string := "\U{1F501}"

  /** The bar head at position head among n glyphs, every other glyph a unit. */
  function BarGlyphs(head: int, n: nat): (bar: string)
    ensures |bar| == n
    ensures forall k :: 0 <= k < n ==> bar[k] == (if k == head then BarHead else BarUnit)
  {
    seq(n, k => if k == head then BarHead else BarUnit)
  }

  /** The bar shows a head exactly when the head position lies on it, and never more than one. */
  lemma BarGlyphsHead(head: int, n: nat)
    ensures (exists k :: 0 <= k < n && BarGlyphs(head, n)[k] == BarHead) <==> 0 <= head < n
    ensures forall j, k :: 0 <= j < k < n ==> !(BarGlyphs(head, n)[j] == BarHead && BarGlyphs(head, n)[k] == BarHead)
  {
    if 0 <= head < n {
      assert BarGlyphs(head, n)[head] == BarHead;
    }
  }

  /** Appends n bar glyphs to a builder's text, the head at slot head and a unit everywhere else. */
  method AppendBarGlyphs(prefix: string, head: int, n: nat) returns (text: string)
    ensures text == prefix + BarGlyphs(head, n)
  {
    text := prefix;
    var i := 0;
    while i < n
      invariant 0 <= i <= n
      invariant text == prefix + BarGlyphs(head, i)
    {
      assert BarGlyphs(head, i + 1) == BarGlyphs(head, i) + [if i == head then BarHead else BarUnit];
      if i == head {
        text := text + [BarHead];
      } else {
        text := text + [BarUnit];
      }
      i := i + 1;
    }
  }
}

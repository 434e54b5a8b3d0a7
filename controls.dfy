/**
 * The ControlsRenderer of each tree: which buttons the player panel shows
 * for the player's state, as (style, id, glyph) records.
 */
module SrcControls {
  import opened Panel
  import PlayerViewMapper

  /** buildPrimaryButtons: shuffle, previous, pause or resume, skip, repeat. */
  function PrimaryButtons(view: PlayerViewMapper.PlayerView): (buttons: seq<Button>)
    ensures |buttons| == 5
    ensures buttons[0].id == "player:shuffle" && buttons[1].id == "player:previous" && buttons[3].id == "player:skip"
    ensures buttons[2].id == (if view.state == "PLAYING" then "player:pause" else "player:resume")
    ensures buttons[2].style == (if view.state == "PLAYING" then Primary else Success)
    ensures buttons[4].id == "player:repeat" && (buttons[4].style == Primary <==> view.repeatEnabled)
  {
    [ Button(Secondary, "player:shuffle", SHUFFLE),
      Button(Secondary, "player:previous", PREVIOUS),
      if view.state == "PLAYING" then Button(Primary, "player:pause", PAUSE) else Button(Success, "player:resume", PLAY),
      Button(Secondary, "player:skip", SKIP),
      if view.repeatEnabled then Button(Primary, "player:repeat", REPEAT) else Button(Secondary, "player:repeat", REPEAT) ]
  }

  /** buildSecondaryButtons: the stop button alone. */
  function SecondaryButtons(): (buttons: seq<Button>)
    ensures buttons == [Button(Danger, "player:stop", STOP)]
  {
    [Button(Danger, "player:stop", STOP)]
  }

  /** render: two action rows, the primary buttons and then the stop button. */
  function Render(view: PlayerViewMapper.PlayerView): (rows: seq<seq<Button>>)
    ensures |rows| == 2 && |rows[0]| == 5 && |rows[1]| == 1
    ensures rows[1][0].id == "player:stop"
  {
    [PrimaryButtons(view), SecondaryButtons()]
  }

  /** The button ids are distinct, whatever the state, so each row is a valid set of components. */
  lemma ButtonIdsDistinct(view: PlayerViewMapper.PlayerView)
    ensures var all := Render(view)[0] + Render(view)[1];
      forall j, k :: 0 <= j < k < |all| ==> all[j].id != all[k].id
  {
  }
}

module BackendControls {
  import opened Panel
  import Common

  /** buildButtons: previous, pause (when PLAYING) or resume, skip, stop. */
  function Buttons(player: PlayerSnapshot): (buttons: seq<Button>)
    ensures |buttons| == 4
    ensures buttons[0] == Button(Secondary, "player:previous", PREVIOUS)
    ensures buttons[2] == Button(Secondary, "player:skip", SKIP)
    ensures buttons[3] == Button(Danger, "player:stop", STOP)
    ensures buttons[1].id == "player:pause" <==> player.state == Common.PLAYING
    ensures buttons[1].id != "player:pause" ==> buttons[1] == Button(Success, "player:resume", PLAY)
  {
    [ Button(Secondary, "player:previous", PREVIOUS),
      if player.state == Common.PLAYING then Button(Primary, "player:pause", PAUSE) else Button(Success, "player:resume", PLAY),
      Button(Secondary, "player:skip", SKIP),
      Button(Danger, "player:stop", STOP) ]
  }
}

/**
 * The src tree's MessageResolver: the status line shown on the player panel
 * for each outcome of a player action.
 */
module MessageResolver {
  import opened Wrappers
  import opened JavaText
  import Panel

  /** PlayerOutcome (the src tree's events package). */
  datatype PlayerOutcome =
    | ENQUEUED | PLAY_STARTED
    | SKIPPED | COMPLETED | NO_NEXT | PREVIOUS | NO_PREVIOUS | JUMPED_TO_TRACK | INVALID_JUMP
    | PAUSED | ALREADY_PAUSED | RESUMED | ALREADY_PLAYING
    | STOPPED | QUEUE_CLEARED | QUEUE_ALREADY_EMPTY
    | REPEAT_ON | REPEAT_OFF | REPEATING | SHUFFLED
    | LOAD_FAILED | ERROR

  const SKIP: string := "\U{23ED}\U{FE0F}"
  const PAUSE: string := "\U{23F8}\U{FE0F}"
  const PLAY: string := "\U{25B6}\U{FE0F}"

  /** resolve: the message for an outcome; null (None) for LOAD_FAILED. */
  function Resolve(outcome: PlayerOutcome): (message: Option<string>)
    ensures message.None? <==> outcome == LOAD_FAILED
    ensures message.Some? ==> |message.value| > 0
  {
    match outcome
    case ENQUEUED => Some("\U{2705} Added to queue")
    case PLAY_STARTED => Some(PLAY + " Playing now")
    case COMPLETED => Some("\U{2705} Track completed")
    case SKIPPED => Some(SKIP + " Skipped to next track")
    case NO_NEXT => Some("\U{274C} Nothing to skip \U{2013} queue is empty")
    case REPEATING => Some("\U{1F501} Repeated current track")
    case REPEAT_ON => Some("\U{1F501} Repeat mode enabled")
    case REPEAT_OFF => Some("\U{1F501} Repeat mode disabled")
    case PREVIOUS => Some(SKIP + " Playing previous track")
    case NO_PREVIOUS => Some("\U{274C} No previous track")
    case JUMPED_TO_TRACK => Some("\U{2705} Jumped to track")
    case INVALID_JUMP => Some("\U{274C} Invalid jump target \U{2013} track not found")
    case PAUSED => Some(PAUSE + " Paused")
    case ALREADY_PAUSED => Some("\U{2139}\U{FE0F} Already paused")
    case RESUMED => Some(PLAY + " Resumed")
    case ALREADY_PLAYING => Some("\U{2139}\U{FE0F} Already playing")
    case STOPPED => Some("\U{25A0} Stopped player")
    case QUEUE_CLEARED => Some("\U{1F5D1}\U{FE0F}  Cleared queue")
    case QUEUE_ALREADY_EMPTY => Some("\U{2139}\U{FE0F} Queue empty")
    case SHUFFLED => Some("\U{1F500} Shuffled queue")
    case LOAD_FAILED => None
    case ERROR => Some("\U{26A0}\U{FE0F} Unexpected error \U{2013} check logs!")
  }

  /**
   * Which outcome a status line reports, told by its length, its first
   * character and, where those agree, its third character; None for any
   * other text.
   */
  function OutcomeOf(message: string): Option<PlayerOutcome> {
    if |message| < 3 then None
    else
      var first, third := message[0], message[2];
      match |message|
      case 9 => if first == '\U{23F8}' then Some(PAUSED) else None
      case 10 => if first == '\U{25B6}' then Some(RESUMED) else None
      case 14 => if first == '\U{25B6}' then Some(PLAY_STARTED) else if first == '\U{2139}' then Some(QUEUE_ALREADY_EMPTY) else None
      case 16 => if first == '\U{2705}' then Some(ENQUEUED) else if first == '\U{25A0}' then Some(STOPPED) else if first == '\U{1F500}' then Some(SHUFFLED) else None
      case 17 => if first == '\U{2705}' && third == 'T' then Some(COMPLETED) else if first == '\U{2705}' && third == 'J' then Some(JUMPED_TO_TRACK) else if first == '\U{2139}' then Some(ALREADY_PAUSED) else if first == '\U{1F5D1}' then Some(QUEUE_CLEARED) else None
      case 18 => if first == '\U{2139}' then Some(ALREADY_PLAYING) else None
      case 19 => if first == '\U{274C}' then Some(NO_PREVIOUS) else None
      case 21 => if first == '\U{1F501}' then Some(REPEAT_ON) else None
      case 22 => if first == '\U{1F501}' then Some(REPEAT_OFF) else None
      case 24 => if first == '\U{23ED}' then Some(SKIPPED) else if first == '\U{1F501}' then Some(REPEATING) else None
      case 25 => if first == '\U{23ED}' then Some(PREVIOUS) else None
      case 33 => if first == '\U{26A0}' then Some(ERROR) else None
      case 34 => if first == '\U{274C}' then Some(NO_NEXT) else None
      case 39 => if first == '\U{274C}' then Some(INVALID_JUMP) else None
      case _ => None
  }

  /** Every message the resolver produces names its outcome back. */
  lemma OutcomeOfResolve(outcome: PlayerOutcome)
    requires outcome != LOAD_FAILED
    ensures OutcomeOf(Resolve(outcome).value) == Some(outcome)
  {
    if outcome.ENQUEUED? || outcome.PLAY_STARTED? || outcome.COMPLETED? {
      OutcomeOfResolveStart(outcome);
    } else if outcome.SKIPPED? || outcome.NO_NEXT? || outcome.PREVIOUS? {
      OutcomeOfResolveSkip(outcome);
    } else if outcome.NO_PREVIOUS? || outcome.JUMPED_TO_TRACK? || outcome.INVALID_JUMP? {
      OutcomeOfResolveJump(outcome);
    } else if outcome.PAUSED? || outcome.ALREADY_PAUSED? || outcome.RESUMED? || outcome.ALREADY_PLAYING? || outcome.STOPPED? || outcome.QUEUE_CLEARED? || outcome.QUEUE_ALREADY_EMPTY? {
      OutcomeOfResolvePlayback(outcome);
    } else if outcome.REPEAT_ON? || outcome.REPEAT_OFF? || outcome.REPEATING? {
      OutcomeOfResolveRepeat(outcome);
    } else if outcome.SHUFFLED? {
      OutcomeOfResolveShuffle();
    } else {
      OutcomeOfResolveError();
    }
  }

  /** OutcomeOfResolve for the enqueue and start outcomes. */
  lemma OutcomeOfResolveStart(outcome: PlayerOutcome)
    requires outcome.ENQUEUED? || outcome.PLAY_STARTED? || outcome.COMPLETED?
    ensures OutcomeOf(Resolve(outcome).value) == Some(outcome)
  {
    var m := Resolve(outcome).value;
    if outcome.ENQUEUED? {
      assert |m| == 16 && m[0] == '\U{2705}' && m[2] == 'A';
    } else if outcome.PLAY_STARTED? {
      assert |m| == 14 && m[0] == '\U{25B6}' && m[2] == ' ';
    } else {
      assert |m| == 17 && m[0] == '\U{2705}' && m[2] == 'T';
    }
  }

  /** OutcomeOfResolve for the skip outcomes. */
  lemma OutcomeOfResolveSkip(outcome: PlayerOutcome)
    requires outcome.SKIPPED? || outcome.NO_NEXT? || outcome.PREVIOUS?
    ensures OutcomeOf(Resolve(outcome).value) == Some(outcome)
  {
    var m := Resolve(outcome).value;
    if outcome.SKIPPED? {
      assert |m| == 24 && m[0] == '\U{23ED}' && m[2] == ' ';
    } else if outcome.NO_NEXT? {
      assert |m| == 34 && m[0] == '\U{274C}' && m[2] == 'N';
    } else {
      assert |m| == 25 && m[0] == '\U{23ED}' && m[2] == ' ';
    }
  }

  /** OutcomeOfResolve for the previous and jump outcomes. */
  lemma OutcomeOfResolveJump(outcome: PlayerOutcome)
    requires outcome.NO_PREVIOUS? || outcome.JUMPED_TO_TRACK? || outcome.INVALID_JUMP?
    ensures OutcomeOf(Resolve(outcome).value) == Some(outcome)
  {
    var m := Resolve(outcome).value;
    if outcome.NO_PREVIOUS? {
      assert |m| == 19 && m[0] == '\U{274C}' && m[2] == 'N';
    } else if outcome.JUMPED_TO_TRACK? {
      assert |m| == 17 && m[0] == '\U{2705}' && m[2] == 'J';
    } else {
      assert |m| == 39 && m[0] == '\U{274C}' && m[2] == 'I';
    }
  }

  /** OutcomeOfResolve for the pause, resume, stop and queue management outcomes. */
  lemma OutcomeOfResolvePlayback(outcome: PlayerOutcome)
    requires outcome.PAUSED? || outcome.ALREADY_PAUSED? || outcome.RESUMED? || outcome.ALREADY_PLAYING? || outcome.STOPPED? || outcome.QUEUE_CLEARED? || outcome.QUEUE_ALREADY_EMPTY?
    ensures OutcomeOf(Resolve(outcome).value) == Some(outcome)
  {
    var m := Resolve(outcome).value;
    if outcome.PAUSED? {
      assert |m| == 9 && m[0] == '\U{23F8}' && m[2] == ' ';
    } else if outcome.ALREADY_PAUSED? {
      assert |m| == 17 && m[0] == '\U{2139}' && m[2] == ' ';
    } else if outcome.RESUMED? {
      assert |m| == 10 && m[0] == '\U{25B6}' && m[2] == ' ';
    } else if outcome.ALREADY_PLAYING? {
      assert |m| == 18 && m[0] == '\U{2139}' && m[2] == ' ';
    } else if outcome.STOPPED? {
      assert |m| == 16 && m[0] == '\U{25A0}' && m[2] == 'S';
    } else if outcome.QUEUE_CLEARED? {
      assert |m| == 17 && m[0] == '\U{1F5D1}' && m[2] == ' ';
    } else {
      assert |m| == 14 && m[0] == '\U{2139}' && m[2] == ' ';
    }
  }

  /** OutcomeOfResolve for the repeat outcomes. */
  lemma OutcomeOfResolveRepeat(outcome: PlayerOutcome)
    requires outcome.REPEAT_ON? || outcome.REPEAT_OFF? || outcome.REPEATING?
    ensures OutcomeOf(Resolve(outcome).value) == Some(outcome)
  {
    var m := Resolve(outcome).value;
    if outcome.REPEAT_ON? {
      assert |m| == 21 && m[0] == '\U{1F501}' && m[2] == 'R';
    } else if outcome.REPEAT_OFF? {
      assert |m| == 22 && m[0] == '\U{1F501}' && m[2] == 'R';
    } else {
      assert |m| == 24 && m[0] == '\U{1F501}' && m[2] == 'R';
    }
  }

  /** OutcomeOfResolve for the shuffle outcome. */
  lemma OutcomeOfResolveShuffle()
    ensures OutcomeOf(Resolve(SHUFFLED).value) == Some(SHUFFLED)
  {
    var m := Resolve(SHUFFLED).value;
    assert |m| == 16 && m[0] == '\U{1F500}' && m[2] == 'S';
  }

  /** OutcomeOfResolve for the error outcome. */
  lemma OutcomeOfResolveError()
    ensures OutcomeOf(Resolve(ERROR).value) == Some(ERROR)
  {
    var m := Resolve(ERROR).value;
    assert |m| == 33;
    assert m[0] == '\U{26A0}';
    ErrorShape(m);
  }

  /** Any 33-character line led by the warning sign reports ERROR. */
  lemma ErrorShape(m: string)
    requires |m| == 33 && m[0] == '\U{26A0}'
    ensures OutcomeOf(m) == Some(ERROR)
  {
  }

  /** No two outcomes share a message: the panel's status line tells every outcome apart. */
  lemma ResolveInjective(a: PlayerOutcome, b: PlayerOutcome)
    requires Resolve(a).Some? && Resolve(a) == Resolve(b)
    ensures a == b
  {
    OutcomeOfResolve(a);
    OutcomeOfResolve(b);
  }

  /**
   * Playing, resuming and skipping show the glyph of the panel's play and
   * skip buttons, and pausing the glyph of its pause button.
   */
  lemma ResolveUsesButtonGlyphs()
    ensures StartsWith(Resolve(PLAY_STARTED).value, Panel.PLAY) && StartsWith(Resolve(RESUMED).value, Panel.PLAY)
    ensures StartsWith(Resolve(SKIPPED).value, Panel.SKIP) && StartsWith(Resolve(PREVIOUS).value, Panel.SKIP)
    ensures StartsWith(Resolve(PAUSED).value, Panel.PAUSE)
  {
  }
}

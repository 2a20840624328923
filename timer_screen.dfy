/**
 * What the timer screen derives from a game state: the "MM:SS" text, the
 * minute and second counters, the active, low-time and pause-icon flags, and
 * which clock command each tap issues.
 */
module TimerScreen {
  import opened Wrappers
  import opened Numerals
  import opened GameStates
  import AnimatedCounter
  import M = ClockMachine

  /** Kotlin `Long` division, which truncates toward zero. */
  function Quot(a: int, b: int): int
    requires b > 0
  {
    if a >= 0 then a / b else -((-a) / b)
  }

  /** Kotlin `Long` remainder, which takes the sign of `a`. */
  function Rem(a: int, b: int): (r: int)
    requires b > 0
    ensures -b < r < b
    ensures a >= 0 ==> 0 <= r
    ensures a <= 0 ==> r <= 0
  {
    a - b * Quot(a, b)
  }

  /** `(ms / 1000) / 60 % 60`: minutes past the hour (the display has no hours). */
  function DisplayMinutes(ms: int): int {
    Rem(Quot(Quot(ms, 1000), 60), 60)
  }

  /** `(ms / 1000) % 60`: seconds past the minute. */
  function DisplaySeconds(ms: int): int {
    Rem(Quot(ms, 1000), 60)
  }

  /** Both fields lie in 0..59 for any non-negative time. */
  lemma FieldsInRange(ms: int)
    requires ms >= 0
    ensures 0 <= DisplayMinutes(ms) <= 59 && 0 <= DisplaySeconds(ms) <= 59
    ensures DisplayMinutes(ms) == (ms / 60000) % 60 && DisplaySeconds(ms) == (ms / 1000) % 60
  {
    assert ms / 1000 / 60 == ms / 60000;
  }

  /**
   * `"%02d"` on ASCII digits: at least two characters, zero-padded; a negative
   * value keeps its sign in front and the sign counts toward the width.
   */
  function Format02(n: int): string {
    if n >= 0 then PadStart(Decimal(n), 2, '0') else "-" + PadStart(Decimal(-n), 1, '0')
  }

  /** `formatTime(ms)` */
  function FormatTime(ms: int): string {
    Format02(DisplayMinutes(ms)) + ":" + Format02(DisplaySeconds(ms))
  }

  /** A two-digit field reads back as the number that was formatted. */
  lemma Format02Value(n: int)
    requires 0 <= n <= 99
    ensures |Format02(n)| == 2 && AllDigits(Format02(n)) && DigitsValue(Format02(n)) == n
  {
    DecimalRoundTrip(n);
    ZeroPadValue(Decimal(n), 2);
  }

  /**
   * For a non-negative time the text is "MM:SS": five characters, a colon at
   * index 2, and the two fields read back as the minutes and the seconds.
   */
  lemma FormatTimeFields(ms: int)
    requires ms >= 0
    ensures var r := FormatTime(ms);
      && |r| == 5 && r[2] == ':'
      && AllDigits(r[..2]) && DigitsValue(r[..2]) == DisplayMinutes(ms)
      && AllDigits(r[3..]) && DigitsValue(r[3..]) == DisplaySeconds(ms)
  {
    FieldsInRange(ms);
    var m, s := DisplayMinutes(ms), DisplaySeconds(ms);
    Format02Value(m);
    Format02Value(s);
    JoinFields(Format02(m), Format02(s));
  }

  /** Two two-character fields joined by a colon, and how to take them apart again. */
  lemma JoinFields(mm: string, ss: string)
    requires |mm| == 2 && |ss| == 2
    ensures var r := mm + ":" + ss;
      |r| == 5 && r[2] == ':' && r[..2] == mm && r[3..] == ss
  {
  }

  /** Sixty minutes more leave both displayed fields as they were. */
  lemma FieldsWrap(ms: int)
    requires ms >= 0
    ensures DisplaySeconds(ms + 3600000) == DisplaySeconds(ms)
    ensures DisplayMinutes(ms + 3600000) == DisplayMinutes(ms)
  {
    var s := ms / 1000;
    assert Quot(ms + 3600000, 1000) == s + 3600;
    assert Quot(s + 3600, 60) == Quot(s, 60) + 60;
    assert Rem(s + 3600, 60) == Rem(s, 60);
    var m := Quot(s, 60);
    assert Rem(m + 60, 60) == Rem(m, 60);
  }

  /** The display wraps every hour: sixty minutes more shows the same text. */
  lemma FormatTimeWraps(ms: int)
    requires ms >= 0
    ensures FormatTime(ms + 3600000) == FormatTime(ms)
  {
    FieldsWrap(ms);
  }

  /** A zero field shows as "00". */
  lemma Format02Zero()
    ensures Format02(0) == "00"
  {
    assert DigitChar(0) == '0';
    assert Decimal(0) == ['0'];
    assert PadStart(['0'], 2, '0') == ['0'] + PadStart(['0'], 1, '0') == ['0', '0'];
  }

  /** Sixty minutes do not fit the two-digit minute field: an hour shows as "00:00". */
  lemma OneHourShowsZero(ms: int)
    requires ms == 60 * 60 * 1000
    ensures FormatTime(ms) == "00:00"
  {
    assert Quot(ms, 1000) == 3600;
    assert DisplayMinutes(ms) == 0 && DisplaySeconds(ms) == 0;
    Format02Zero();
  }

  /**
   * The odometer counters, two digits each, show exactly the two fields of
   * the formatted text.
   */
  lemma CounterMatchesText(ms: int)
    requires ms >= 0
    ensures AnimatedCounter.DigitString(DisplayMinutes(ms), 2) == FormatTime(ms)[..2]
    ensures AnimatedCounter.DigitString(DisplaySeconds(ms), 2) == FormatTime(ms)[3..]
  {
    FieldsInRange(ms);
    var m, s := DisplayMinutes(ms), DisplaySeconds(ms);
    Format02Value(m);
    Format02Value(s);
    JoinFields(Format02(m), Format02(s));
    assert AnimatedCounter.Abs(m) == m && AnimatedCounter.Abs(s) == s;
  }

  /** The play/pause button shows "pause" exactly while a clock is running. */
  predicate ShowPause(s: GameState) {
    s.isGameStarted && s.isGameRunning && !s.isGamePaused
  }

  /** A side's timer area is highlighted while its own clock is running. */
  predicate IsActive(s: GameState, isPlayer1: bool) {
    (if isPlayer1 then s.isPlayer1Turn else !s.isPlayer1Turn)
    && s.isGameStarted && s.isGameRunning && !s.isGamePaused
  }

  /** A side's time turns to the warning colour under 30 seconds once the game has started. */
  predicate IsLowTime(s: GameState, isPlayer1: bool) {
    (if isPlayer1 then s.player1TimeLeft else s.player2TimeLeft) < 30_000 && s.isGameStarted
  }

  /** A side is active iff it is its turn and the pause icon shows, so at most one side is. */
  lemma ActiveFlags(s: GameState, isPlayer1: bool)
    ensures IsActive(s, isPlayer1) <==> ShowPause(s) && s.isPlayer1Turn == isPlayer1
    ensures !(IsActive(s, true) && IsActive(s, false))
    ensures ShowPause(s) <==> IsActive(s, true) || IsActive(s, false)
  {
  }

  /** On any reachable clock, the highlighted side is exactly the one a timer job is counting down. */
  lemma ActiveMeansTicking(c: M.Clock, isPlayer1: bool)
    requires M.Inv(c)
    ensures IsActive(c.state, isPlayer1) <==> c.ticker == Some(isPlayer1)
    ensures ShowPause(c.state) <==> c.ticker.Some?
  {
  }

  /**
   * On a reachable clock the low-time flag means a started game with between
   * 0 and 30 s left on that side; it never shows before the start, and a tick
   * of the timer job never clears it.
   */
  lemma LowTimeFlag(c: M.Clock, isPlayer1: bool)
    requires M.Inv(c)
    ensures var t := if isPlayer1 then c.state.player1TimeLeft else c.state.player2TimeLeft;
      IsLowTime(c.state, isPlayer1) ==> c.state.isGameStarted && 0 <= t < 30000
    ensures !c.state.isGameStarted ==> !IsLowTime(c.state, isPlayer1)
    ensures IsLowTime(c.state, isPlayer1) ==> IsLowTime(M.TimerTick(c).state, isPlayer1)
  {
  }

  /** Ticks, pauses and resumes: the commands that credit no time. */
  predicate CreditsNoTime(cmds: seq<M.Command>) {
    forall i :: 0 <= i < |cmds| ==> cmds[i].Tick? || cmds[i].Pause? || cmds[i].Resume?
  }

  /** Once shown, the low-time flag stays on through any ticks, pauses and resumes. */
  lemma {:induction false} LowTimeIsSticky(c: M.Clock, isPlayer1: bool, cmds: seq<M.Command>)
    requires IsLowTime(c.state, isPlayer1) && CreditsNoTime(cmds)
    ensures IsLowTime(M.Run(c, cmds).state, isPlayer1)
    decreases |cmds|
  {
    if cmds != [] {
      assert IsLowTime(M.Step(c, cmds[0]).state, isPlayer1);
      assert CreditsNoTime(cmds[1..]) by {
        forall i | 0 <= i < |cmds[1..]| ensures cmds[1..][i].Tick? || cmds[1..][i].Pause? || cmds[1..][i].Resume? {
          assert cmds[1..][i] == cmds[i + 1];
        }
      }
      LowTimeIsSticky(M.Step(c, cmds[0]), isPlayer1, cmds[1..]);
    }
  }

  /**
   * The increment can clear the flag: White at 29 s with a 5 s increment
   * taps the clock and is back at 34 s.
   */
  lemma LowTimeClearedByIncrement(c: M.Clock)
    requires c == M.StartGame(M.ApplySettings(M.Initial(), 29000, 300000, 5000))
    ensures IsLowTime(c.state, true)
    ensures M.SwitchTurn(c, true).state.player1TimeLeft == 34000
    ensures !IsLowTime(M.SwitchTurn(c, true).state, true)
  {
  }

  /** A tap on a player's own timer area: start the game, or press that player's clock. */
  function PlayerTap(s: GameState, isPlayer1: bool): M.Command {
    if !s.isGameStarted then M.Start else M.Switch(isPlayer1)
  }

  /** The play/pause button: start, pause or resume by state; nothing once the game has ended. */
  function PlayPauseTap(s: GameState): Option<M.Command> {
    if !s.isGameStarted then Some(M.Start)
    else if s.isGameRunning && !s.isGamePaused then Some(M.Pause)
    else if s.isGamePaused then Some(M.Resume)
    else None
  }

  /** The settings button opens the settings only when no clock is running. */
  predicate CanOpenSettings(s: GameState) {
    !(s.isGameStarted && s.isGameRunning && !s.isGamePaused)
  }

  /**
   * What each tap does on a reachable clock: a player tap starts a game not
   * yet started and otherwise presses that player's own clock; play/pause
   * starts, pauses or resumes, and is ignored exactly when the game has ended.
   * Every command issued respects the clock's precondition.
   */
  lemma TapDispatch(c: M.Clock, isPlayer1: bool)
    requires M.Inv(c)
    ensures PlayerTap(c.state, isPlayer1) == M.Start <==> !c.state.isGameStarted
    ensures c.state.isGameStarted ==> PlayerTap(c.state, isPlayer1) == M.Switch(isPlayer1)
    ensures M.Allowed(c, PlayerTap(c.state, isPlayer1))
    ensures PlayPauseTap(c.state).None? <==> c.state.isGameStarted && !c.state.isGameRunning
    ensures PlayPauseTap(c.state) == Some(M.Pause) <==> ShowPause(c.state)
    ensures PlayPauseTap(c.state) == Some(M.Resume) <==> c.state.isGamePaused
    ensures PlayPauseTap(c.state).Some? ==> M.Allowed(c, PlayPauseTap(c.state).value)
  {
  }

  /** The settings are refused exactly while a timer job is live. */
  lemma SettingsRefusedWhileRunning(c: M.Clock)
    requires M.Inv(c)
    ensures CanOpenSettings(c.state) <==> c.ticker.None?
    ensures CanOpenSettings(c.state) <==> !ShowPause(c.state)
  {
  }

  /** A tap by the side on the move, in play, is accepted and passes the clock to the opponent. */
  lemma OwnTapSwitches(c: M.Clock, isPlayer1: bool)
    requires M.Inv(c) && IsActive(c.state, isPlayer1)
    ensures M.Step(c, PlayerTap(c.state, isPlayer1)).ticker == Some(!isPlayer1)
    ensures IsActive(M.Step(c, PlayerTap(c.state, isPlayer1)).state, !isPlayer1)
  {
  }

  /** A tap by the side not on the move changes nothing. */
  lemma OpponentTapIgnored(c: M.Clock, isPlayer1: bool)
    requires M.Inv(c) && IsActive(c.state, !isPlayer1)
    ensures M.Step(c, PlayerTap(c.state, isPlayer1)) == c
  {
  }
}

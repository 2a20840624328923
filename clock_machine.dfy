/**
 * The chess clock's state machine as pure transitions on a `Clock` value: the
 * published game state, the configured time control that a reset restores,
 * which side (if any) has a live timer job, and the events sent so far.
 * Class `ChessTimerViewModel` in module ViewModel runs these in place.
 */
module ClockMachine {
  import opened Wrappers
  import opened GameStates
  import opened GameEvents

  /** Milliseconds between two ticks of the timer job. */
  const TimerInterval := 100

  /** The time control set by the last `applySettings` (5:00 / 5:00 / 0 at start). */
  datatype Config = Config(p1Time: int, p2Time: int, increment: int)

  /**
   * `ticker == Some(true)`: a timer job is counting down player 1;
   * `Some(false)`: player 2; `None`: no job is live. Cancelling the old job and
   * launching the new one is a single step. `events` is everything ever sent
   * on the event channel, oldest first.
   */
  datatype Clock = Clock(state: GameState, config: Config, ticker: Option<bool>, events: seq<GameEvent>)

  function Initial(): Clock {
    Clock(Default(), Config(DefaultTime, DefaultTime, 0), None, [])
  }

  /** `startGame`: no guard of its own. */
  function StartGame(c: Clock): Clock {
    c.(state := c.state.(isGameStarted := true, isPlayer1Turn := true),
       ticker := Some(true),
       events := c.events + [PlayTapSound])
  }

  /** When `switchTurn(p1Pressed)` goes ahead: the side on the move pressed its own clock. */
  predicate SwitchAccepted(s: GameState, p1Pressed: bool) {
    s.isGameStarted && s.isGameRunning && !s.isGamePaused && p1Pressed == s.isPlayer1Turn
  }

  /** `switchTurn(p1Pressed)`: the mover is credited the increment and a move. */
  function SwitchTurn(c: Clock, p1Pressed: bool): Clock {
    var s := c.state;
    if !SwitchAccepted(s, p1Pressed) then c
    else if s.isPlayer1Turn then
      c.(state := s.(player1TimeLeft := s.player1TimeLeft + s.timeIncrement,
                     isPlayer1Turn := false,
                     player1Moves := s.player1Moves + 1),
         ticker := Some(false),
         events := c.events + [PlayTapSound])
    else
      c.(state := s.(player2TimeLeft := s.player2TimeLeft + s.timeIncrement,
                     isPlayer1Turn := true,
                     player2Moves := s.player2Moves + 1),
         ticker := Some(true),
         events := c.events + [PlayTapSound])
  }

  /** `pauseGame`: acts whenever the game is started and not ended, paused or not. */
  function PauseGame(c: Clock): Clock {
    if c.state.isGameStarted && c.state.isGameRunning then
      c.(state := c.state.(isGamePaused := true), ticker := None)
    else c
  }

  /** `resumeGame`: restarts the timer job for the side whose turn it is. */
  function ResumeGame(c: Clock): Clock {
    if c.state.isGamePaused then
      c.(state := c.state.(isGamePaused := false), ticker := Some(c.state.isPlayer1Turn))
    else c
  }

  /** `resetGame`: a fresh game from the configured time control. */
  function ResetGame(c: Clock): Clock {
    c.(state := NewGame(c.config.p1Time, c.config.p2Time, c.config.increment), ticker := None)
  }

  /** `applySettings(p1Time, p2Time, increment)`: store the time control and start afresh. */
  function ApplySettings(c: Clock, p1Time: int, p2Time: int, increment: int): Clock {
    c.(state := NewGame(p1Time, p2Time, increment),
       config := Config(p1Time, p2Time, increment),
       ticker := None)
  }

  /**
   * One iteration of the timer job's loop, 100 ms after the previous one,
   * reading the latest state. When the side's time would reach 0 or less it is
   * clamped to 0, the game ends, the winner is announced and the job stops.
   */
  function TimerTick(c: Clock): Clock {
    match c.ticker
    case None => c
    case Some(isPlayer1) =>
      var s := c.state;
      var newTime := (if isPlayer1 then s.player1TimeLeft else s.player2TimeLeft) - TimerInterval;
      if newTime <= 0 then
        c.(state := if isPlayer1 then s.(player1TimeLeft := 0, isGameRunning := false)
                    else s.(player2TimeLeft := 0, isGameRunning := false),
           ticker := None,
           events := c.events + [ShowGameOver(TimeOutMessage(isPlayer1))])
      else
        c.(state := if isPlayer1 then s.(player1TimeLeft := newTime) else s.(player2TimeLeft := newTime))
  }

  /** Whatever can happen to the clock: a command from the screen, or a tick of the timer job. */
  datatype Command =
    | Start
    | Switch(p1Pressed: bool)
    | Pause
    | Resume
    | Reset
    | Apply(p1Time: int, p2Time: int, increment: int)
    | Tick

  function Step(c: Clock, cmd: Command): Clock {
    match cmd
    case Start => StartGame(c)
    case Switch(p) => SwitchTurn(c, p)
    case Pause => PauseGame(c)
    case Resume => ResumeGame(c)
    case Reset => ResetGame(c)
    case Apply(a, b, i) => ApplySettings(c, a, b, i)
    case Tick => TimerTick(c)
  }

  /**
   * What callers guarantee: the screen starts a game only when none is started,
   * and the settings screen sends only non-negative times.
   */
  predicate Allowed(c: Clock, cmd: Command) {
    match cmd
    case Start => !c.state.isGameStarted
    case Apply(a, b, i) => a >= 0 && b >= 0 && i >= 0
    case _ => true
  }

  function Run(c: Clock, cmds: seq<Command>): Clock
    decreases |cmds|
  {
    if cmds == [] then c else Run(Step(c, cmds[0]), cmds[1..])
  }

  /** Every command of the sequence is allowed in the state it is issued in. */
  predicate AllowedRun(c: Clock, cmds: seq<Command>)
    decreases |cmds|
  {
    cmds == [] || (Allowed(c, cmds[0]) && AllowedRun(Step(c, cmds[0]), cmds[1..]))
  }

  /** The invariant of every clock reachable from `Initial()` through allowed commands. */
  ghost predicate Inv(c: Clock) {
    var s := c.state;
    // no negative time, increment or move count is ever published
    && s.player1TimeLeft >= 0 && s.player2TimeLeft >= 0 && s.timeIncrement >= 0
    && s.player1Moves >= 0 && s.player2Moves >= 0
    && c.config.p1Time >= 0 && c.config.p2Time >= 0 && c.config.increment >= 0
    // the increment credited is the configured one
    && s.timeIncrement == c.config.increment
    // paused implies started and not ended
    && PauseConsistent(s)
    // a game not yet started shows the configured time control untouched
    && (!s.isGameStarted ==>
          s.isGameRunning && s.isPlayer1Turn
          && s.player1TimeLeft == c.config.p1Time && s.player2TimeLeft == c.config.p2Time
          && s.player1Moves == 0 && s.player2Moves == 0)
    // a timer job is live exactly while the game is in play, and it times the side to move
    && (c.ticker.Some? <==> s.isGameStarted && s.isGameRunning && !s.isGamePaused)
    && (c.ticker.Some? ==> c.ticker.value == s.isPlayer1Turn)
    // only the two event kinds, with the two game-over messages
    && (forall i :: 0 <= i < |c.events| ==> IsProduced(c.events[i]))
  }

  lemma InitialInv()
    ensures Inv(Initial())
  {
  }

  /** Each allowed command keeps the invariant. */
  lemma StepInv(c: Clock, cmd: Command)
    requires Inv(c) && Allowed(c, cmd)
    ensures Inv(Step(c, cmd))
  {
    var d := Step(c, cmd);
    assert forall i :: 0 <= i < |c.events| ==> d.events[i] == c.events[i] by {
      EventsAppendOnly(c, cmd);
    }
  }

  /** Any sequence of allowed commands keeps the invariant. */
  lemma {:induction false} RunInv(c: Clock, cmds: seq<Command>)
    requires Inv(c) && AllowedRun(c, cmds)
    ensures Inv(Run(c, cmds))
    decreases |cmds|
  {
    if cmds != [] {
      StepInv(c, cmds[0]);
      RunInv(Step(c, cmds[0]), cmds[1..]);
    }
  }

  /** Every state reachable from the initial one by allowed commands satisfies `Inv`. */
  lemma ReachableInv(cmds: seq<Command>)
    requires AllowedRun(Initial(), cmds)
    ensures Inv(Run(Initial(), cmds))
  {
    InitialInv();
    RunInv(Initial(), cmds);
  }

  /** The event channel is append-only, with at most one event per command. */
  lemma EventsAppendOnly(c: Clock, cmd: Command)
    ensures |c.events| <= |Step(c, cmd).events| <= |c.events| + 1
    ensures Step(c, cmd).events[..|c.events|] == c.events
  {
  }

  /**
   * `startGame` sets the two flags and nothing else in the state, keeps the
   * configured time control, times player 1 and plays one tap sound.
   */
  lemma StartGameEffect(c: Clock)
    ensures StartGame(c).state.isGameStarted && StartGame(c).state.isPlayer1Turn
    ensures StartGame(c).ticker == Some(true)
    ensures StartGame(c).events == c.events + [PlayTapSound]
    ensures StartGame(c).state.player1TimeLeft == c.state.player1TimeLeft
    ensures StartGame(c).state.player2TimeLeft == c.state.player2TimeLeft
    ensures StartGame(c).state == c.state.(isGameStarted := true, isPlayer1Turn := true)
    ensures StartGame(c).config == c.config
  {
  }

  /**
   * Without the caller's guard, `startGame` on an ended game would set a timer
   * job running on a game that is over, breaking the invariant: this is why
   * the screen only calls it before the game has started.
   */
  lemma StartGameNeedsGuard()
    ensures var ended := Clock(Default().(isGameStarted := true, isGameRunning := false, player1TimeLeft := 0),
                               Config(DefaultTime, DefaultTime, 0), None, []);
            Inv(ended) && !Inv(StartGame(ended))
  {
  }

  /** `switchTurn` changes the clock if and only if the side to move pressed its own clock in play. */
  lemma SwitchTurnGuard(c: Clock, p1Pressed: bool)
    ensures SwitchTurn(c, p1Pressed) != c <==> SwitchAccepted(c.state, p1Pressed)
  {
    if SwitchAccepted(c.state, p1Pressed) {
      assert |SwitchTurn(c, p1Pressed).events| == |c.events| + 1;
    }
  }

  /**
   * An accepted switch credits exactly the increment and one move to the
   * mover, leaves the opponent alone, passes the turn, starts the opponent's
   * timer job and plays one tap sound.
   */
  lemma SwitchTurnCredits(c: Clock, p1Pressed: bool)
    requires SwitchAccepted(c.state, p1Pressed)
    ensures var d := SwitchTurn(c, p1Pressed);
      var s, t := c.state, d.state;
      && (p1Pressed ==> t.player1TimeLeft == s.player1TimeLeft + s.timeIncrement
                        && t.player1Moves == s.player1Moves + 1
                        && t.player2TimeLeft == s.player2TimeLeft && t.player2Moves == s.player2Moves)
      && (!p1Pressed ==> t.player2TimeLeft == s.player2TimeLeft + s.timeIncrement
                         && t.player2Moves == s.player2Moves + 1
                         && t.player1TimeLeft == s.player1TimeLeft && t.player1Moves == s.player1Moves)
      && t.isPlayer1Turn == !s.isPlayer1Turn
      && t == s.(player1TimeLeft := t.player1TimeLeft, player2TimeLeft := t.player2TimeLeft,
                 player1Moves := t.player1Moves, player2Moves := t.player2Moves,
                 isPlayer1Turn := t.isPlayer1Turn)
      && d.ticker == Some(!p1Pressed)
      && d.events == c.events + [PlayTapSound]
      && d.config == c.config
  {
  }

  /**
   * `pauseGame` in play stops the timer job and sets the flag with the times
   * untouched; otherwise it changes nothing; twice is the same as once.
   */
  lemma PauseGameEffect(c: Clock)
    ensures c.state.isGameStarted && c.state.isGameRunning ==>
      PauseGame(c) == c.(state := c.state.(isGamePaused := true), ticker := None)
    ensures !(c.state.isGameStarted && c.state.isGameRunning) ==> PauseGame(c) == c
    ensures PauseGame(PauseGame(c)) == PauseGame(c)
  {
  }

  /** `resumeGame` acts only when paused and then times the side to move with the times untouched. */
  lemma ResumeGameEffect(c: Clock)
    ensures !c.state.isGamePaused ==> ResumeGame(c) == c
    ensures c.state.isGamePaused ==>
      && !ResumeGame(c).state.isGamePaused
      && ResumeGame(c).ticker == Some(c.state.isPlayer1Turn)
      && ResumeGame(c).state == c.state.(isGamePaused := false)
      && ResumeGame(c).events == c.events
      && ResumeGame(c).config == c.config
  {
  }

  /** Pausing a game in play and resuming it gives back the same clock. */
  lemma PauseResumeRoundTrip(c: Clock)
    requires Inv(c) && c.state.isGameStarted && c.state.isGameRunning && !c.state.isGamePaused
    ensures ResumeGame(PauseGame(c)) == c
  {
  }

  /**
   * Reset and applySettings both stop the timer job and install a
   * fresh game; after applySettings a reset restores the applied values, not
   * the built-in defaults.
   */
  lemma ResetAfterApply(c: Clock, p1Time: int, p2Time: int, increment: int)
    ensures ResetGame(ApplySettings(c, p1Time, p2Time, increment)) == ApplySettings(c, p1Time, p2Time, increment)
    ensures ApplySettings(c, p1Time, p2Time, increment).state == NewGame(p1Time, p2Time, increment)
    ensures ResetGame(c).state == NewGame(c.config.p1Time, c.config.p2Time, c.config.increment)
    ensures ResetGame(c).ticker == None && ApplySettings(c, p1Time, p2Time, increment).ticker == None
    ensures ResetGame(c).config == c.config && ResetGame(c).events == c.events
    ensures ApplySettings(c, p1Time, p2Time, increment).config == Config(p1Time, p2Time, increment)
    ensures ApplySettings(c, p1Time, p2Time, increment).events == c.events
  {
  }

  /** A tick above the last 100 ms takes exactly 100 ms from the side on the clock and nothing else. */
  lemma TickCountsDown(c: Clock)
    requires c.ticker.Some?
    requires (if c.ticker.value then c.state.player1TimeLeft else c.state.player2TimeLeft) - TimerInterval > 0
    ensures var d := TimerTick(c);
      && (c.ticker.value ==> d.state == c.state.(player1TimeLeft := c.state.player1TimeLeft - 100))
      && (!c.ticker.value ==> d.state == c.state.(player2TimeLeft := c.state.player2TimeLeft - 100))
      && d.ticker == c.ticker && d.events == c.events && d.config == c.config
  {
  }

  /**
   * The tick that uses up a side's time sets it to 0, ends the game,
   * stops the timer job and announces the other colour as the winner.
   */
  lemma TickExpires(c: Clock)
    requires c.ticker.Some?
    requires (if c.ticker.value then c.state.player1TimeLeft else c.state.player2TimeLeft) - TimerInterval <= 0
    ensures var d := TimerTick(c);
      && (c.ticker.value ==> d.state == c.state.(player1TimeLeft := 0, isGameRunning := false)
                             && d.events == c.events + [ShowGameOver("Time out! Black wins!")])
      && (!c.ticker.value ==> d.state == c.state.(player2TimeLeft := 0, isGameRunning := false)
                              && d.events == c.events + [ShowGameOver("Time out! White wins!")])
      && d.ticker == None && d.config == c.config
  {
  }

  /** A timer job is live only in play, it times the side to move, and a tick touches only that side. */
  lemma TickTouchesActiveSideOnly(c: Clock)
    requires Inv(c)
    ensures c.ticker.Some? <==> c.state.isGameStarted && c.state.isGameRunning && !c.state.isGamePaused
    ensures c.ticker.Some? && c.state.isPlayer1Turn ==>
      TimerTick(c).state.player2TimeLeft == c.state.player2TimeLeft
    ensures c.ticker.Some? && !c.state.isPlayer1Turn ==>
      TimerTick(c).state.player1TimeLeft == c.state.player1TimeLeft
    ensures c.ticker.None? ==> TimerTick(c) == c
  {
  }

  /** No command other than reset and applySettings. */
  predicate NoRestart(cmds: seq<Command>) {
    forall i :: 0 <= i < |cmds| ==> !cmds[i].Reset? && !cmds[i].Apply?
  }

  /**
   * Once a side's flag has fallen, nothing but a reset or new settings
   * changes the clock: no tick, tap, pause or resume has any effect.
   */
  lemma {:induction false} EndedIsTerminal(c: Clock, cmds: seq<Command>)
    requires Inv(c) && !c.state.isGameRunning
    requires AllowedRun(c, cmds) && NoRestart(cmds)
    ensures Run(c, cmds) == c
    decreases |cmds|
  {
    if cmds != [] {
      assert Step(c, cmds[0]) == c;
      assert NoRestart(cmds[1..]) by {
        forall i | 0 <= i < |cmds[1..]| ensures !cmds[1..][i].Reset? && !cmds[1..][i].Apply? {
          assert cmds[1..][i] == cmds[i + 1];
        }
      }
      EndedIsTerminal(c, cmds[1..]);
    }
  }

  /** Commands that leave a paused game paused: ticks, taps on either clock and further pauses. */
  predicate KeepsPaused(cmds: seq<Command>) {
    forall i :: 0 <= i < |cmds| ==> cmds[i].Tick? || cmds[i].Switch? || cmds[i].Pause?
  }

  /**
   * While the game is paused, no time passes for either
   * side however many ticks, taps or pauses come in.
   */
  lemma {:induction false} PausedIsFrozen(c: Clock, cmds: seq<Command>)
    requires Inv(c) && c.state.isGamePaused && KeepsPaused(cmds)
    ensures Run(c, cmds) == c
    decreases |cmds|
  {
    if cmds != [] {
      assert Step(c, cmds[0]) == c;
      assert KeepsPaused(cmds[1..]) by {
        forall i | 0 <= i < |cmds[1..]| ensures cmds[1..][i].Tick? || cmds[1..][i].Switch? || cmds[1..][i].Pause? {
          assert cmds[1..][i] == cmds[i + 1];
        }
      }
      PausedIsFrozen(c, cmds[1..]);
    }
  }

  /** Start from the defaults, then White moves with a 5 s increment. */
  lemma OpeningMove()
    ensures var a := StartGame(Initial());
      && a.state.isPlayer1Turn && a.state.isGameRunning && a.ticker == Some(true)
      && a.events == [PlayTapSound] && a.state.player1TimeLeft == 300000
    ensures var b := SwitchTurn(StartGame(ApplySettings(Initial(), 300000, 300000, 5000)), true);
      && b.state.player1TimeLeft == 305000 && b.state.player1Moves == 1
      && !b.state.isPlayer1Turn && b.ticker == Some(false)
  {
  }
}

/** The immutable snapshot of a game that the clock publishes after every change. */
module GameStates {

  /** Five minutes, in milliseconds: the time each side gets by default. */
  const DefaultTime := 5 * 60 * 1000

  /**
   * Times are milliseconds (Kotlin `Long`), moves are counters (Kotlin `Int`);
   * both are unbounded here.
   */
  datatype GameState = GameState(
    player1TimeLeft: int,
    player2TimeLeft: int,
    timeIncrement: int,
    isPlayer1Turn: bool,
    isGameStarted: bool,
    isGameRunning: bool,
    isGamePaused: bool,
    player1Moves: int,
    player2Moves: int)

  /**
   * `GameState(player1TimeLeft = p1, player2TimeLeft = p2, timeIncrement = inc)`:
   * every other field keeps its declared default.
   */
  function NewGame(p1Time: int, p2Time: int, increment: int): (s: GameState)
    ensures s.player1TimeLeft == p1Time && s.player2TimeLeft == p2Time
    ensures s.timeIncrement == increment
    ensures s.isPlayer1Turn && !s.isGameStarted && s.isGameRunning && !s.isGamePaused
    ensures s.player1Moves == 0 && s.player2Moves == 0
  {
    GameState(p1Time, p2Time, increment, true, false, true, false, 0, 0)
  }

  /** `GameState()`: all defaults. */
  function Default(): GameState {
    NewGame(DefaultTime, DefaultTime, 0)
  }

  /** A game that is paused has been started and not ended. */
  predicate PauseConsistent(s: GameState) {
    s.isGamePaused ==> s.isGameStarted && s.isGameRunning
  }

  /** The default snapshot: 5:00 each, no increment, White to move, not started. */
  lemma DefaultValues()
    ensures Default().player1TimeLeft == 300000 && Default().player2TimeLeft == 300000
    ensures Default().timeIncrement == 0
    ensures Default().isPlayer1Turn
    ensures !Default().isGameStarted && Default().isGameRunning && !Default().isGamePaused
    ensures Default().player1Moves == 0 && Default().player2Moves == 0
    ensures PauseConsistent(Default())
  {
  }
}

/**
 * `ChessTimerViewModel`: the clock object whose commands replace the
 * published state in place. Each command method is specified by its pure
 * transition in ClockMachine (`Tick` by `TimerTick`) and keeps the invariant
 * `ClockMachine.Inv`; `StartTimer` and `CancelTimer` only replace the timer job.
 */
module ViewModel {
  import opened Wrappers
  import opened GameStates
  import opened GameEvents
  import M = ClockMachine

  class ChessTimerViewModel {
    /** The latest published snapshot. */
    var state: GameState
    /** Everything sent on the event channel, oldest first. */
    var events: seq<GameEvent>
    /** The side a live timer job is counting down, if any. */
    var ticker: Option<bool>
    /** The time control that a reset restores. */
    var configuredP1Time: int
    var configuredP2Time: int
    var configuredIncrement: int

    function Snapshot(): M.Clock
      reads this
    {
      M.Clock(state, M.Config(configuredP1Time, configuredP2Time, configuredIncrement), ticker, events)
    }

    ghost predicate Valid()
      reads this
    {
      M.Inv(Snapshot())
    }

    constructor ()
      ensures Snapshot() == M.Initial() && Valid()
    {
      state := Default();
      events := [];
      ticker := None;
      configuredP1Time := DefaultTime;
      configuredP2Time := DefaultTime;
      configuredIncrement := 0;
      new;
      M.InitialInv();
    }

    /** Cancels the running timer job, if any, and launches one for the given side. */
    method StartTimer(isPlayer1: bool)
      modifies this`ticker
      ensures ticker == Some(isPlayer1)
    {
      ticker := Some(isPlayer1);
    }

    /** `timerJob?.cancel()` */
    method CancelTimer()
      modifies this`ticker
      ensures ticker == None
    {
      ticker := None;
    }

    /** The screen calls this only before the game has started. */
    method StartGame()
      requires Valid() && !state.isGameStarted
      modifies this
      ensures Snapshot() == M.StartGame(old(Snapshot())) && Valid()
      ensures state.isGameStarted && state.isPlayer1Turn && ticker == Some(true)
      ensures events == old(events) + [PlayTapSound]
    {
      state := state.(isGameStarted := true, isPlayer1Turn := true);
      StartTimer(true);
      events := events + [PlayTapSound];
      M.StepInv(old(Snapshot()), M.Start);
    }

    method SwitchTurn(isPlayer1Pressed: bool)
      requires Valid()
      modifies this
      ensures Snapshot() == M.SwitchTurn(old(Snapshot()), isPlayer1Pressed) && Valid()
      ensures !M.SwitchAccepted(old(state), isPlayer1Pressed) ==> Snapshot() == old(Snapshot())
    {
      M.StepInv(Snapshot(), M.Switch(isPlayer1Pressed));
      var s := state;
      if !s.isGameStarted || !s.isGameRunning || s.isGamePaused {
        return;
      }
      if (s.isPlayer1Turn && !isPlayer1Pressed) || (!s.isPlayer1Turn && isPlayer1Pressed) {
        return;
      }
      CancelTimer();
      if s.isPlayer1Turn {
        state := state.(player1TimeLeft := state.player1TimeLeft + state.timeIncrement,
                        isPlayer1Turn := false,
                        player1Moves := state.player1Moves + 1);
        StartTimer(false);
      } else {
        state := state.(player2TimeLeft := state.player2TimeLeft + state.timeIncrement,
                        isPlayer1Turn := true,
                        player2Moves := state.player2Moves + 1);
        StartTimer(true);
      }
      events := events + [PlayTapSound];
    }

    method PauseGame()
      requires Valid()
      modifies this
      ensures Snapshot() == M.PauseGame(old(Snapshot())) && Valid()
      ensures state.player1TimeLeft == old(state.player1TimeLeft)
      ensures state.player2TimeLeft == old(state.player2TimeLeft)
    {
      M.StepInv(Snapshot(), M.Pause);
      var s := state;
      if s.isGameStarted && s.isGameRunning {
        CancelTimer();
        state := state.(isGamePaused := true);
      }
    }

    method ResumeGame()
      requires Valid()
      modifies this
      ensures Snapshot() == M.ResumeGame(old(Snapshot())) && Valid()
      ensures state.player1TimeLeft == old(state.player1TimeLeft)
      ensures state.player2TimeLeft == old(state.player2TimeLeft)
    {
      M.StepInv(Snapshot(), M.Resume);
      var s := state;
      if s.isGamePaused {
        state := state.(isGamePaused := false);
        StartTimer(s.isPlayer1Turn);
      }
    }

    method ResetGame()
      requires Valid()
      modifies this
      ensures Snapshot() == M.ResetGame(old(Snapshot())) && Valid()
      ensures state == NewGame(configuredP1Time, configuredP2Time, configuredIncrement) && ticker == None
    {
      M.StepInv(Snapshot(), M.Reset);
      CancelTimer();
      state := NewGame(configuredP1Time, configuredP2Time, configuredIncrement);
    }

    /** The settings screen sends only non-negative times. */
    method ApplySettings(p1Time: int, p2Time: int, increment: int)
      requires Valid() && p1Time >= 0 && p2Time >= 0 && increment >= 0
      modifies this
      ensures Snapshot() == M.ApplySettings(old(Snapshot()), p1Time, p2Time, increment) && Valid()
      ensures state == NewGame(p1Time, p2Time, increment) && ticker == None
      ensures configuredP1Time == p1Time && configuredP2Time == p2Time && configuredIncrement == increment
    {
      M.StepInv(Snapshot(), M.Apply(p1Time, p2Time, increment));
      CancelTimer();
      configuredP1Time := p1Time;
      configuredP2Time := p2Time;
      configuredIncrement := increment;
      state := NewGame(p1Time, p2Time, increment);
    }

    /** One pass of the timer job's loop body, run by the environment whenever 100 ms have passed. */
    method Tick()
      requires Valid()
      modifies this
      ensures Snapshot() == M.TimerTick(old(Snapshot())) && Valid()
    {
      M.StepInv(Snapshot(), M.Tick);
      match ticker {
        case None =>
        case Some(isPlayer1) =>
          var current := state;
          if isPlayer1 {
            var newTime := current.player1TimeLeft - M.TimerInterval;
            if newTime <= 0 {
              state := state.(player1TimeLeft := 0, isGameRunning := false);
              events := events + [ShowGameOver("Time out! Black wins!")];
              ticker := None;
            } else {
              state := state.(player1TimeLeft := newTime);
            }
          } else {
            var newTime := current.player2TimeLeft - M.TimerInterval;
            if newTime <= 0 {
              state := state.(player2TimeLeft := 0, isGameRunning := false);
              events := events + [ShowGameOver("Time out! White wins!")];
              ticker := None;
            } else {
              state := state.(player2TimeLeft := newTime);
            }
          }
      }
    }
  }
}

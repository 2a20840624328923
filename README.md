# Chess clock: a verified model

A Dafny model of the core of a two-player chess clock app for Android. The core is the clock's state machine: whose clock runs, start, turn switch with increment, pause and resume, reset, new settings, and the 100 ms countdown that ends the game when a flag falls. Around it sit three small pieces of integer logic from the screens:
- the timer screen's "MM:SS" text, flags and tap dispatch;
- the settings form's filter, validation and conversion;
- the odometer counter's digit arithmetic.

Modules, one per source file:

- `GameStates` (`game_state.dfy`): the immutable `GameState` snapshot and its defaults.
- `GameEvents` (`game_event.dfy`): the two one-shot events and the two game-over messages.
- `ClockMachine` (`clock_machine.dfy`): the clock as pure transitions on a `Clock` value. A `Clock` holds four things:
  - the published state;
  - the configured time control;
  - `ticker`, the side a live timer job is counting down, if any;
  - `events`, everything sent on the event channel.

  This module also holds the invariant `Inv` of every reachable clock and the lemmas about runs of commands.
- `ViewModel` (`view_model.dfy`): class `ChessTimerViewModel`, with the same fields updated in place. Each command method is specified by its pure transition in `ClockMachine` (`Tick` by `TimerTick`) and keeps `Inv`. `StartTimer` and `CancelTimer` only replace the timer job. `Tick` is one pass of the timer job's loop; the environment calls it each time 100 ms have passed.
- `TimerScreen` (`timer_screen.dfy`): `formatTime`, the minute and second counters, the active, low-time and pause-icon flags, and which command each tap sends.
- `SettingsScreen` (`settings_screen.dfy`): the presets, the input filter, the field mirroring and the apply button. The pure functions work on a `Form` value. Class `SettingsForm` holds the remembered form state and calls the view model on apply.
- `AnimatedCounter` (`animated_counter.dfy`): the zero-padded digit string and the shortest way round the 0..9 ring.
- `Numerals` and `Wrappers`: decimal text (`toString`, `padStart`, `toIntOrNull` on ASCII digits) and `Option`.

Three points about the code that the model reflects:
- `pauseGame` does not check `isGamePaused`. Pausing a paused game sets the flag again, so pausing is idempotent.
- `startGame` has no guard. The class method requires a game that has not started, because the timer screen only calls it then. `ClockMachine.StartGameNeedsGuard` shows that calling it on an ended game would start a clock on a game that is over.
- The increment is credited with no cap.

Time is Kotlin `Long` and is modelled as `int`. Kotlin's `/` and `%` truncate toward zero, so `TimerScreen.Quot` and `TimerScreen.Rem` model them explicitly. `Int.mod(10)` is a floor-mod, which equals Dafny's `%` for divisor 10.

## Model

| member | source | states |
|---|---|---|
| GameStates.DefaultValues | app/src/main/java/com/fahim/chesstimer/GameState.kt:3-13 | the default snapshot has 300000 ms each, no increment and White to move; it is not started, running and not paused, with zero moves, so paused implies started and running |
| GameStates.NewGame | app/src/main/java/com/fahim/chesstimer/GameState.kt:3-13 | `GameState(player1TimeLeft, player2TimeLeft, timeIncrement)` as resetGame and applySettings build it: those two times and that increment, White to move, not started, running, not paused, no moves |
| GameEvents.TwoKinds | app/src/main/java/com/fahim/chesstimer/GameEvent.kt:3-6 | an event is one of exactly two kinds; a tap sound carries nothing |
| ClockMachine.InitialInv | app/src/main/java/com/fahim/chesstimer/ChessTimerViewModel.kt:18-30 | the clock as created (defaults, 5:00/5:00/0 configured, no timer job, no events) satisfies the invariant |
| ClockMachine.StepInv | app/src/main/java/com/fahim/chesstimer/ChessTimerViewModel.kt:32-134 | every allowed command keeps the invariant. Times, increment and moves stay non-negative; paused implies started and running; a timer job is live iff started, running and not paused, and it times the side to move; only the two game-over messages are sent |
| ClockMachine.RunInv | app/src/main/java/com/fahim/chesstimer/ChessTimerViewModel.kt:32-134 | any sequence of allowed commands keeps the invariant |
| ClockMachine.ReachableInv | app/src/main/java/com/fahim/chesstimer/ChessTimerViewModel.kt:18-134 | every clock reachable from the initial one, with startGame only before a start and non-negative settings, satisfies the invariant |
| ClockMachine.EventsAppendOnly | app/src/main/java/com/fahim/chesstimer/ChessTimerViewModel.kt:21-22 | the event channel only grows, by at most one event per command, and keeps what was sent |
| ClockMachine.StartGameEffect | app/src/main/java/com/fahim/chesstimer/ChessTimerViewModel.kt:32-36 | startGame sets started and White's turn and changes nothing else in the state: times, increment, moves, running and paused are kept. It keeps the configured time control, times player 1 and sends one tap sound |
| ClockMachine.StartGameNeedsGuard | app/src/main/java/com/fahim/chesstimer/ChessTimerViewModel.kt:32-36 | on an ended game, the unguarded startGame breaks the invariant (a clock runs on a finished game) |
| ClockMachine.SwitchTurnGuard | app/src/main/java/com/fahim/chesstimer/ChessTimerViewModel.kt:41-45 | switchTurn changes the clock if and only if the game is started, running and not paused, and the pressed side is the side to move |
| ClockMachine.SwitchTurnCredits | app/src/main/java/com/fahim/chesstimer/ChessTimerViewModel.kt:47-71 | an accepted switch adds exactly the increment and one move to the mover and leaves the opponent unchanged. It flips the turn and changes no other state field. It times the opponent, sends one tap sound and keeps the configuration |
| ClockMachine.PauseGameEffect | app/src/main/java/com/fahim/chesstimer/ChessTimerViewModel.kt:74-80 | when started and running, pause only sets the flag and stops the timer job; otherwise it is a no-op; twice equals once |
| ClockMachine.ResumeGameEffect | app/src/main/java/com/fahim/chesstimer/ChessTimerViewModel.kt:82-88 | resume acts only when paused; then it clears the flag, times the side to move, and leaves the rest of the state, the events and the configuration alone |
| ClockMachine.PauseResumeRoundTrip | app/src/main/java/com/fahim/chesstimer/ChessTimerViewModel.kt:74-88 | pausing a running game and resuming it gives back exactly the same clock |
| ClockMachine.ResetAfterApply | app/src/main/java/com/fahim/chesstimer/ChessTimerViewModel.kt:90-109 | reset and applySettings stop the timer job and install a fresh game from the configured values. applySettings stores the three values as the configuration; neither sends an event. applySettings then reset equals applySettings alone |
| ClockMachine.TickCountsDown | app/src/main/java/com/fahim/chesstimer/ChessTimerViewModel.kt:116-133 | when time minus 100 stays positive, a tick lowers that side's time by exactly 100 and changes nothing else |
| ClockMachine.TickExpires | app/src/main/java/com/fahim/chesstimer/ChessTimerViewModel.kt:117-131 | otherwise the tick sets that time to 0, ends the game and stops the timer job. It sends "Time out! Black wins!" when player 1's time ran out and "Time out! White wins!" when player 2's did, and keeps the configuration |
| ClockMachine.TickTouchesActiveSideOnly | app/src/main/java/com/fahim/chesstimer/ChessTimerViewModel.kt:111-117 | on a reachable clock a timer job is live iff the game is in play; a tick never touches the side not to move; without a job a tick does nothing |
| ClockMachine.EndedIsTerminal | app/src/main/java/com/fahim/chesstimer/ChessTimerViewModel.kt:119-131 | once the game has ended, no sequence of ticks, taps, pauses or resumes changes the clock |
| ClockMachine.PausedIsFrozen | app/src/main/java/com/fahim/chesstimer/ChessTimerViewModel.kt:74-88 | while paused, no sequence of ticks, taps or pauses changes the clock, so no time is lost |
| ClockMachine.OpeningMove | app/src/main/java/com/fahim/chesstimer/ChessTimerViewModel.kt:32-71 | from the defaults, start times White from 300000 with one tap sound. White's move with a 5000 ms increment gives 305000, one move, and Black on the clock |
| ViewModel.ChessTimerViewModel.constructor | app/src/main/java/com/fahim/chesstimer/ChessTimerViewModel.kt:18-30 | the view model starts as the initial clock and satisfies the invariant |
| ViewModel.ChessTimerViewModel.StartTimer | app/src/main/java/com/fahim/chesstimer/ChessTimerViewModel.kt:111-113 | cancel-then-launch: afterwards exactly one timer job, for the given side |
| ViewModel.ChessTimerViewModel.CancelTimer | app/src/main/java/com/fahim/chesstimer/ChessTimerViewModel.kt:91 | `timerJob?.cancel()`: afterwards no timer job is live, whether or not one was |
| ViewModel.ChessTimerViewModel.StartGame | app/src/main/java/com/fahim/chesstimer/ChessTimerViewModel.kt:32-36 | from a game not started, performs the startGame transition and keeps the invariant |
| ViewModel.ChessTimerViewModel.SwitchTurn | app/src/main/java/com/fahim/chesstimer/ChessTimerViewModel.kt:38-72 | performs the switchTurn transition, changes nothing on a refused press, keeps the invariant |
| ViewModel.ChessTimerViewModel.PauseGame | app/src/main/java/com/fahim/chesstimer/ChessTimerViewModel.kt:74-80 | performs the pause transition with both times unchanged, keeps the invariant |
| ViewModel.ChessTimerViewModel.ResumeGame | app/src/main/java/com/fahim/chesstimer/ChessTimerViewModel.kt:82-88 | performs the resume transition with both times unchanged, keeps the invariant |
| ViewModel.ChessTimerViewModel.ResetGame | app/src/main/java/com/fahim/chesstimer/ChessTimerViewModel.kt:90-97 | installs a fresh game from the configured values with no timer job, keeps the invariant |
| ViewModel.ChessTimerViewModel.ApplySettings | app/src/main/java/com/fahim/chesstimer/ChessTimerViewModel.kt:99-109 | stores the three values as the configuration, installs a fresh game from them with no timer job, keeps the invariant |
| ViewModel.ChessTimerViewModel.Tick | app/src/main/java/com/fahim/chesstimer/ChessTimerViewModel.kt:114-134 | one pass of the timer loop performs the tick transition and keeps the invariant |
| Numerals.Decimal | app/src/main/java/com/fahim/chesstimer/ui/component/AnimatedCounter.kt:68 | toString of a non-negative number is a non-empty string of digits, without a leading zero, whose length grows at 10, 100 and 1000 |
| Numerals.DecimalRoundTrip | app/src/main/java/com/fahim/chesstimer/ui/screen/SettingsScreen.kt:216-218 | the digits written by toString read back as the number |
| Numerals.ZeroPadValue | app/src/main/java/com/fahim/chesstimer/ui/component/AnimatedCounter.kt:68 | padding a digit string with '0' keeps it a digit string with the same value |
| Numerals.PadStart | app/src/main/java/com/fahim/chesstimer/ui/component/AnimatedCounter.kt:68 | for a non-negative width (Kotlin throws on a negative one), padStart yields max(length, width) characters: the pad character, then the original string |
| Numerals.ToIntOrNullDigits | app/src/main/java/com/fahim/chesstimer/ui/screen/SettingsScreen.kt:319-321 | toIntOrNull of an empty string is null, and of a digit string that fits an Int is its value |
| Numerals.ToStringToIntOrNull | app/src/main/java/com/fahim/chesstimer/ui/screen/SettingsScreen.kt:216-218 | a preset value written by toString parses back to the same value |
| TimerScreen.Rem | app/src/main/java/com/fahim/chesstimer/ui/screen/TimerScreen.kt:431-432 | Long remainder lies strictly between -b and b and takes the sign of the dividend |
| TimerScreen.FieldsInRange | app/src/main/java/com/fahim/chesstimer/ui/screen/TimerScreen.kt:429-432 | for a non-negative time the minutes field is (ms/60000) % 60 and the seconds field (ms/1000) % 60, both in 0..59 |
| TimerScreen.Format02Value | app/src/main/java/com/fahim/chesstimer/ui/screen/TimerScreen.kt:433 | "%02d" of 0..99 is two digits that read back as the number |
| TimerScreen.FormatTimeFields | app/src/main/java/com/fahim/chesstimer/ui/screen/TimerScreen.kt:429-434 | for a non-negative time the text has 5 characters with ':' at index 2, and its two fields read back as the minutes and the seconds |
| TimerScreen.FieldsWrap | app/src/main/java/com/fahim/chesstimer/ui/screen/TimerScreen.kt:430-432 | with the Long truncating division and remainder, 3600000 ms more leaves both the minutes and the seconds field unchanged |
| TimerScreen.FormatTimeWraps | app/src/main/java/com/fahim/chesstimer/ui/screen/TimerScreen.kt:431 | adding 60 minutes does not change the text (the minute field wraps) |
| TimerScreen.Format02Zero | app/src/main/java/com/fahim/chesstimer/ui/screen/TimerScreen.kt:433 | a zero field is written "00" |
| TimerScreen.OneHourShowsZero | app/src/main/java/com/fahim/chesstimer/ui/screen/TimerScreen.kt:429-433 | 3600000 ms formats as "00:00" |
| TimerScreen.CounterMatchesText | app/src/main/java/com/fahim/chesstimer/ui/screen/TimerScreen.kt:79-90 | the two-digit minute and second counters show exactly the two fields of the formatted text |
| TimerScreen.ActiveFlags | app/src/main/java/com/fahim/chesstimer/ui/screen/TimerScreen.kt:181-182 | a side is active iff it is its turn and the pause icon shows; at most one side is active; the pause icon shows iff some side is active |
| TimerScreen.ActiveMeansTicking | app/src/main/java/com/fahim/chesstimer/ui/screen/TimerScreen.kt:93-97 | on a reachable clock a side is shown active exactly when a timer job counts it down, and the pause icon shows exactly while a job is live |
| TimerScreen.LowTimeFlag | app/src/main/java/com/fahim/chesstimer/ui/screen/TimerScreen.kt:184 | on a reachable clock, a low-time side has a started game and between 0 and 29999 ms left. The flag never shows before the start, and a tick of the timer job never clears it |
| TimerScreen.LowTimeIsSticky | app/src/main/java/com/fahim/chesstimer/ui/screen/TimerScreen.kt:184 | once a side's low-time flag shows, it stays on through any sequence of ticks, pauses and resumes |
| TimerScreen.LowTimeClearedByIncrement | app/src/main/java/com/fahim/chesstimer/ui/screen/TimerScreen.kt:184 | the increment can clear the flag: White at 29000 ms with a 5000 ms increment taps and is back at 34000 ms, no longer low |
| TimerScreen.JoinFields | app/src/main/java/com/fahim/chesstimer/ui/screen/TimerScreen.kt:433 | the "%02d:%02d" layout: two two-character fields and a colon make five characters, and the fields are recovered at indices 0..2 and 3..5 |
| TimerScreen.TapDispatch | app/src/main/java/com/fahim/chesstimer/ui/screen/TimerScreen.kt:124-147 | a player tap starts a game not yet started and otherwise presses that player's clock. Play/pause starts, pauses or resumes by state, and does nothing exactly when the game has ended. Every command sent is allowed, so the screen never starts a started game |
| TimerScreen.SettingsRefusedWhileRunning | app/src/main/java/com/fahim/chesstimer/ui/screen/TimerScreen.kt:149-158 | settings open exactly when no timer job is live, that is when the pause icon is not shown |
| TimerScreen.OwnTapSwitches | app/src/main/java/com/fahim/chesstimer/ui/screen/TimerScreen.kt:124-130 | a tap by the active side hands the clock to the opponent, which becomes active |
| TimerScreen.OpponentTapIgnored | app/src/main/java/com/fahim/chesstimer/ui/screen/TimerScreen.kt:131-137 | a tap by the side not on the move leaves the clock unchanged |
| AnimatedCounter.DigitStringValue | app/src/main/java/com/fahim/chesstimer/ui/component/AnimatedCounter.kt:66-68 | for a non-negative minDigits, the digit string is all digits, at least minDigits long, reads back as the absolute value, and is unpadded when already long enough |
| AnimatedCounter.RingDigit | app/src/main/java/com/fahim/chesstimer/ui/component/AnimatedCounter.kt:150 | mod 10 lies in 0..9 |
| AnimatedCounter.DiffsComplement | app/src/main/java/com/fahim/chesstimer/ui/component/AnimatedCounter.kt:155-156 | for distinct digits the forward and backward differences are in 1..9, sum to 10, and each leads to the new digit |
| AnimatedCounter.NewTargetLands | app/src/main/java/com/fahim/chesstimer/ui/component/AnimatedCounter.kt:149-163 | no target exactly when the digit is unchanged. A new target shows the digit at distance min(forward, backward), in 1..5. On a tie it moves up iff the counter is incrementing |
| AnimatedCounter.NewTargetShortest | app/src/main/java/com/fahim/chesstimer/ui/component/AnimatedCounter.kt:153-163 | no position showing the digit is nearer to the last target than the chosen one |
| AnimatedCounter.VisibleDigits | app/src/main/java/com/fahim/chesstimer/ui/component/AnimatedCounter.kt:176-178 | the four drawn digits are in 0..9, the second is the current position's, each is the previous plus one round the ring |
| SettingsScreen.PresetsInRange | app/src/main/java/com/fahim/chesstimer/ui/screen/SettingsScreen.kt:68-98 | there are 13 presets, all of 1..90 whole minutes with increments of 0..30 s, and "5+0" is one of them |
| SettingsScreen.InitialFormOk | app/src/main/java/com/fahim/chesstimer/ui/screen/SettingsScreen.kt:117-124 | the initial form (5/0/0 each, same time for both, "5+0" selected) is well formed |
| SettingsScreen.SelectPresetOk | app/src/main/java/com/fahim/chesstimer/ui/screen/SettingsScreen.kt:214-223 | a preset highlights its chip and writes its minutes, seconds and increment to White's fields. It writes them to Black's too iff same time is set; otherwise Black is untouched. The checkbox is unchanged and the form stays well formed |
| SettingsScreen.SetSameTimeOk | app/src/main/java/com/fahim/chesstimer/ui/screen/SettingsScreen.kt:258-264 | checking the box copies White's three fields to Black and keeps White's fields and the highlighted preset; unchecking changes only the box; the form stays well formed |
| SettingsScreen.EditWhiteOk | app/src/main/java/com/fahim/chesstimer/ui/screen/SettingsScreen.kt:281-295 | a White edit that fails the filter changes nothing. One that passes sets the field, clears the preset, mirrors to Black iff same time, and leaves every other field alone |
| SettingsScreen.EditBlackOk | app/src/main/java/com/fahim/chesstimer/ui/screen/SettingsScreen.kt:308-310 | a Black edit, possible only with different times, changes nothing if it fails the filter. One that passes sets that field and clears the preset; it changes no White field and no other Black field, and keeps the form well formed |
| SettingsScreen.ParseOrZeroField | app/src/main/java/com/fahim/chesstimer/ui/screen/SettingsScreen.kt:319-321 | a field that passed the filter parses to its digits' value in 0..999; an empty one to 0 |
| SettingsScreen.SubmitRejectsZero | app/src/main/java/com/fahim/chesstimer/ui/screen/SettingsScreen.kt:325-332 | apply refuses White first when White's minutes and seconds are both 0, then Black likewise (Black read from White's fields when same time is set), and goes through otherwise |
| SettingsScreen.SubmitConverts | app/src/main/java/com/fahim/chesstimer/ui/screen/SettingsScreen.kt:334-338 | an accepted apply sends (min*60+sec)*1000 for each side, positive multiples of 1000, and White's increment times 1000. The two times are equal with same time for both |
| SettingsScreen.SubmitIgnoresBlackIncrement | app/src/main/java/com/fahim/chesstimer/ui/screen/SettingsScreen.kt:319-337 | Black's increment field has no effect on what apply sends |
| SettingsScreen.PresetThenApply | app/src/main/java/com/fahim/chesstimer/ui/screen/SettingsScreen.kt:214-224 | for any preset of 1..90 whole minutes (every listed one, by PresetsInRange), selecting it and pressing apply is never refused for White. It sends the preset's minutes and increment in milliseconds for White, and for Black too when same time is set; otherwise Black's own fields decide Black's time or the refusal |
| SettingsScreen.SettingsForm.constructor | app/src/main/java/com/fahim/chesstimer/ui/screen/SettingsScreen.kt:117-124 | the remembered form starts as the initial form |
| SettingsScreen.SettingsForm.PresetClicked | app/src/main/java/com/fahim/chesstimer/ui/screen/SettingsScreen.kt:214-224 | a chip tap applies the preset to the fields in place and keeps the form well formed |
| SettingsScreen.SettingsForm.SameTimeChecked | app/src/main/java/com/fahim/chesstimer/ui/screen/SettingsScreen.kt:258-265 | the checkbox callback, in place, keeping the form well formed |
| SettingsScreen.SettingsForm.EditWhiteField | app/src/main/java/com/fahim/chesstimer/ui/screen/SettingsScreen.kt:446-450 | text typed in a White field goes through the digit-only, three-character filter before the White callback |
| SettingsScreen.SettingsForm.EditBlackField | app/src/main/java/com/fahim/chesstimer/ui/screen/SettingsScreen.kt:299-311 | text typed in a Black field, shown only with different times, goes through the same filter |
| SettingsScreen.SettingsForm.ApplyClicked | app/src/main/java/com/fahim/chesstimer/ui/screen/SettingsScreen.kt:318-340 | the apply button returns the validation outcome. On a zero time the clock is untouched; otherwise the clock receives applySettings with the converted values and stays valid |

## Left out

- Coroutines: `viewModelScope.launch`, `delay` and `Job.cancel`. A live timer job is the `ticker` field; cancel-then-launch is one assignment; each 100 ms pass of the loop is a call of `Tick`. Real time and drift are not modelled.
- The event channel's buffer capacity and a failing `trySend`: events are an unbounded append-only sequence. Delivery to the screen (sound, snackbar) is not modelled.
- `StateFlow` publication and subscription: the view model's `state` field is the latest published snapshot.
- The `Log.e` call in `switchTurn`: logging only.
- Sound playback (`SoundManager.kt`), the activity, theme persistence and navigation (`MainActivity.kt`), colour schemes (`Theme.kt`) and the build script are not part of this model.
- Compose rendering, colour and float animation, pulse alpha, the text-measuring loop, toasts, snackbars and recomposition mechanics.
- The odometer's remembered `previousValue` and `Animatable` position: `IsIncrementing` and `NewTarget` take the previous value and the last target as parameters.
- `String.format` locales: digits are ASCII. `Char.isDigit` and `toIntOrNull` also accept non-ASCII Unicode digits; the model accepts only '0'..'9'.
- Kotlin `Int` and `Long` overflow: times and move counts are unbounded integers. The three-digit field limit keeps every converted setting far below the `Long` range. `abs(Int.MIN_VALUE)` staying negative in the odometer is not modelled.
- The apply button's `onBack()` navigation.
- Numerals.PadStart: Kotlin throws IllegalArgumentException for a negative width. The model makes a non-negative width a precondition, and so does AnimatedCounter.DigitString for minDigits. The exception is not modelled as an error path, because every caller passes a width of 1, 2 or 3.

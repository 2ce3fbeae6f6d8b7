# Simon game controller: a Dafny model

This project models the controller of a "Simon" memory game that runs on a
microcontroller. The computer plays a growing sequence of four colours
(red, blue, yellow, green) on LEDs, and one or two players repeat it on four
push buttons. A joystick picks the mode and starts the game. The project
models two source files:

- `SimonGame.c`: the phase machine `Game_Run` (WELCOME, START, PLAYER_MENU,
  PLAYER_SELECT, ONE_PLAYER, TWO_PLAYERS, GAME_RESULT, PLAY_AGAIN, SLEEP and
  the default branch), `Game_Init`, the computer turn, the player turn with
  its 50-tick timeout, the comparator and the two-read button debounce.
- `joystick.c`: the handle set-up, the 16-sample ADC averaging, the 32-read
  calibration of the centre, the dead-zone direction classifier, the X/Y
  read and the debounced push button.

Files:

- `pins.dfy` (module `Pins`): pin levels and the active-low debounce. A
  press counts only when both reads are low.
- `joystick.dfy` (module `Joystick`): the driver as functions (the sums, the
  average, the classifier) and as a class `Handle` whose methods run the
  source's loops against those functions.
- `simon.dfy` (module `Simon`): the game rules as values, with lemmas about
  them. It covers the button priority, the bounded waits, the colours a turn
  collects, the LED trace of a playback, the comparison rule, the speed
  schedule, the sticky direction and the verdict line.
- `simon_game.dfy` (module `SimonGame`): the class `Game`. Its fields are
  the session (`state`, `numPlayers`, `round`, `sequenceLength`,
  `sequenceSpeed`, the arrays `sequence`, `inputs1` and `inputs2`, which
  stand for `playerInputs[0]` and `playerInputs[1]`, and `playerScores`).
  It also holds the statics of `Game_Run`. Each phase is a method whose
  contract gives the new state in terms of the old state and the inputs.

Hardware becomes explicit input:

- A GPIO debounce is a `PinPair`: the first read, then the read taken after
  the settle delay.
- An ADC conversion is a `Conversion`: a success flag and a 12-bit value.
- `rand()` is a sequence of non-negative draws.
- The interrupt-driven tick counter becomes a poll trace. Each pass of a
  bounded wait records the tick value its loop guard saw. A trace that ends
  means the timer expired. A player turn gets one trace per position, each
  counted from that position's timer reset. No START poll sees a tick below
  the counter's value on entry: 0 after WELCOME, whatever it last held after
  PLAY_AGAIN, which does not reset it (SimonGame.c:320-325).
- LED writes are returned as a trace of `LedWrite` events.

Behaviour of the code worth knowing:

- Only player 1 can score. `playerScores[1]` is never incremented (SimonGame.c:254-261).
- Scores are not reset when a new game is selected (SimonGame.c:201-203).
- In two-player mode the comparator checks `sequenceLength - 1` positions
  (SimonGame.c:77), so a comparison does not check the colour the player
  just entered last (lemma `Simon.TwoPlayerIgnoresLast`). The next
  comparison runs one position longer and does check it (lemma
  `Simon.TwoPlayerNextComparisonChecks`). Only the colour entered in the
  game's final turn is never checked.
- Pressing the joystick in PLAYER_SELECT before any direction was chosen
  leaves `numPlayers` at 0. That selects TWO_PLAYERS (SimonGame.c:189-199).
- Player 2 plays even after player 1's comparison has failed, and the length
  has already grown by one (SimonGame.c:256-270).
- The sticky hold in PLAYER_SELECT (SimonGame.c:152-158) has no visible
  effect. It turns an IDLE reading after UP into UP, and UP equals the last
  direction, so no selection update fires. The held direction triggers the
  update exactly when the raw one does, with the same value (lemma
  `Simon.StickyHoldChangesNothing`). The selection is not made sticky, as
  the code's comment intends.
- The debounce doc comment speaks of "pressed and released". The code
  accepts a switch that still reads pressed after the delay, and so does
  the model.

## Model

| member | source | states |
|---|---|---|
| `Pins.Debounce` | workspace/lcd+joystick/Core/Src/SimonGame.c:46-56 | a button counts as pressed iff both reads are low; a high first read never counts |
| `Pins.DebounceBounce` | workspace/lcd+joystick/Core/Src/SimonGame.c:46-56 | a bounce (low then high) is rejected, a held press accepted, and the second read is irrelevant after a high first read |
| `Joystick.Contribution` | workspace/lcd+joystick/Core/Src/joystick.c:49-50 | a conversion adds its 12-bit value when it succeeded and nothing when it failed, so it adds 0..4095 |
| `Joystick.SuccessfulSum` | workspace/lcd+joystick/Core/Src/joystick.c:44-52 | the sum of successful conversions is between 0 and 4095 per sample, so the 32-bit accumulator cannot wrap |
| `Joystick.Average` | workspace/lcd+joystick/Core/Src/joystick.c:54 | the averaged reading lies in 0..4095, so the 16-bit cast keeps it |
| `Joystick.SumOfAverages` | workspace/lcd+joystick/Core/Src/joystick.c:63-66 | the calibration sum stays within 0..reads*4095 |
| `Joystick.Classify` | workspace/lcd+joystick/Core/Src/joystick.c:79-87 | UP iff x - centre > 80, DOWN iff x - centre < -80, IDLE iff within the dead zone |
| `Joystick.ClassifyMonotone` | workspace/lcd+joystick/Core/Src/joystick.c:79-87 | an UP reading stays UP for larger X and a DOWN reading stays DOWN for smaller X |
| `Joystick.ReadChannel` | workspace/lcd+joystick/Core/Src/joystick.c:36-55 | the result is the sum of the successful samples among 16 attempts divided by 16 |
| `Joystick.SumAtMost` | workspace/lcd+joystick/Core/Src/joystick.c:44-52 | when no successful sample exceeds m, the sum is at most count*m |
| `Joystick.AverageAtMostMax` | workspace/lcd+joystick/Core/Src/joystick.c:44-54 | the averaged reading never exceeds the largest successful sample; failed conversions only lower it |
| `Joystick.SumOfConstant` | workspace/lcd+joystick/Core/Src/joystick.c:44-52 | successful conversions all equal to v sum to count*v |
| `Joystick.AverageOfConstant` | workspace/lcd+joystick/Core/Src/joystick.c:44-54 | 16 successful conversions of v average to exactly v |
| `Joystick.SumOfAveragesConstant` | workspace/lcd+joystick/Core/Src/joystick.c:63-66 | readings that all average c sum to count*c, whatever their individual conversions |
| `Joystick.CalibrationOfConstant` | workspace/lcd+joystick/Core/Src/joystick.c:61-69 | 32 readings that all average c calibrate the centre to c |
| `Joystick.CalibrationOfSteadyStick` | workspace/lcd+joystick/Core/Src/joystick.c:44-69 | 32 readings whose every conversion succeeds with c calibrate the centre to c |
| `Joystick.Handle.constructor` | workspace/lcd+joystick/Core/Src/joystick.c:6 | the calibrated centre starts at 0 |
| `Joystick.Handle.Init` | workspace/lcd+joystick/Core/Src/joystick.c:17-29 | the five parameters are stored unchanged; the centre is untouched |
| `Joystick.Handle.Calibrate` | workspace/lcd+joystick/Core/Src/joystick.c:61-69 | the centre becomes the sum of 32 averaged X reads divided by 32 |
| `Joystick.Handle.GetDirection` | workspace/lcd+joystick/Core/Src/joystick.c:75-88 | the direction is the classifier applied to the averaged X read and the stored centre |
| `Joystick.Handle.ReadXY` | workspace/lcd+joystick/Core/Src/joystick.c:95-99 | xy[0] becomes the X average, xy[1] the Y average, and no other element changes |
| `Joystick.Handle.Pressed` | workspace/lcd+joystick/Core/Src/joystick.c:106-117 | returns pressed iff both button reads are low (active low) |
| `Simon.PollColor` | workspace/lcd+joystick/Core/Src/SimonGame.c:410-436 | one poll accepts red if red debounces, else blue, else yellow, else green, else nothing |
| `Simon.WaitForColor` | workspace/lcd+joystick/Core/Src/SimonGame.c:408-437 | the colour wait: stops at the first poll whose guard sees 50 ticks, at the end of the trace or at the first poll that accepts a colour; `WaitForColorSpec` characterises it |
| `Simon.WaitForColorSpec` | workspace/lcd+joystick/Core/Src/SimonGame.c:408-437 | a colour is collected iff some poll before the 50-tick timeout accepts it and no earlier poll accepted anything |
| `Simon.NoPressTimesOut` | workspace/lcd+joystick/Core/Src/SimonGame.c:408-443 | a panel that never reports a press yields a timeout |
| `Simon.PressedWithin` | workspace/lcd+joystick/Core/Src/SimonGame.c:123-130 | the START wait: true when a poll reads a debounced press before its guard sees the limit; `PressedWithinSpec` characterises it |
| `Simon.PressedWithinSpec` | workspace/lcd+joystick/Core/Src/SimonGame.c:123-130 | the START wait sees a press iff some poll reads the button low twice and that poll's guard, like every earlier one, saw fewer than 100 ticks |
| `Simon.StartWaitBoundary` | workspace/lcd+joystick/Core/Src/SimonGame.c:123 | a press seen at tick 99 moves START on; one seen only at tick 100 is too late |
| `Simon.Collect` | workspace/lcd+joystick/Core/Src/SimonGame.c:401-444 | a turn records, per position, the colour that position's wait collected, and stops at the first timed-out position |
| `Simon.TimedOut` | workspace/lcd+joystick/Core/Src/SimonGame.c:439-443 | a turn timed out when it recorded fewer colours than it has positions |
| `Simon.CollectComplete` | workspace/lcd+joystick/Core/Src/SimonGame.c:401-444 | a turn completes iff every position's wait collects a colour |
| `Simon.CollectStops` | workspace/lcd+joystick/Core/Src/SimonGame.c:439-443 | once a position times out, no later position is recorded |
| `Simon.Draws` | workspace/lcd+joystick/Core/Src/SimonGame.c:352-360 | drawn colour i is the i-th rand() value mod 4, always in 0..3 |
| `Simon.Flash` | workspace/lcd+joystick/Core/Src/SimonGame.c:366-390 | one stored code sets and then resets its LED; a code outside 0..3 matches no case and writes nothing |
| `Simon.Playback` | workspace/lcd+joystick/Core/Src/SimonGame.c:362-390 | the LED writes of playing a sequence: the flashes of its codes, in order; `PlaybackInOrder` and `PlaybackLeavesLedsOff` characterise it |
| `Simon.PlaybackInOrder` | workspace/lcd+joystick/Core/Src/SimonGame.c:362-390 | playback sets and then resets each colour's LED, in sequence order, two writes per colour |
| `Simon.PlaybackLeavesLedsOff` | workspace/lcd+joystick/Core/Src/SimonGame.c:362-390 | no LED is left on after a playback |
| `Simon.Mismatch` | workspace/lcd+joystick/Core/Src/SimonGame.c:66-83 | some position below the bound holds different codes in the two rows |
| `Simon.CompareFails` | workspace/lcd+joystick/Core/Src/SimonGame.c:64-85 | one player: a mismatch with the sequence over the length; otherwise a mismatch between the two rows over length - 1 |
| `Simon.TwoPlayerIgnoresLast` | workspace/lcd+joystick/Core/Src/SimonGame.c:75-85 | two rows equal on their first length-1 entries pass in two-player mode, whatever their last entry |
| `Simon.TwoPlayerNextComparisonChecks` | workspace/lcd+joystick/Core/Src/SimonGame.c:75-85 | a difference at the position a two-player comparison skips makes the next, one-longer comparison fail |
| `Simon.OnePlayerFailsIffDiffers` | workspace/lcd+joystick/Core/Src/SimonGame.c:64-74 | one-player comparison fails iff the player's row differs from the sequence on its first `length` entries |
| `Simon.OnePlayerRoundPasses` | workspace/lcd+joystick/Core/Src/SimonGame.c:217-230 | a one-player round fails (timeout or mismatch) iff the collected colours are not exactly the drawn colours |
| `Simon.NextSpeed` | workspace/lcd+joystick/Core/Src/SimonGame.c:235-236 | the delay drops by 5 ms after a successful round only while it is above 400 ms |
| `Simon.SpeedSchedule` | workspace/lcd+joystick/Core/Src/SimonGame.c:235-236 | after n successful rounds from 1000 ms the delay is max(1000 - 5n, 400) and never below 400 |
| `Simon.StickyDirection` | workspace/lcd+joystick/Core/Src/SimonGame.c:152-158 | an IDLE reading right after UP is replaced by UP only while the hold count is below 3; the hold count stays within 0..3 |
| `Simon.HoldLastsThreeReadings` | workspace/lcd+joystick/Core/Src/SimonGame.c:152-158 | after an UP, three IDLE readings are held as UP and the fourth is IDLE |
| `Simon.StickyHoldChangesNothing` | workspace/lcd+joystick/Core/Src/SimonGame.c:152-183 | the held direction fires the selection update exactly when the raw direction does, with the same value |
| `Simon.Verdict` | workspace/lcd+joystick/Core/Src/SimonGame.c:297-308 | "Player 1 Wins" iff score1 > score2, "Player 2 Wins" iff score1 < score2, "Players Tied" iff they are equal |
| `SimonGame.SeedOf` | workspace/lcd+joystick/Core/Src/SimonGame.c:194-196 | the seed is the 16-bit XOR of the two readings, so XOR-ing it with Y gives back X |
| `SimonGame.PollButtons` | workspace/lcd+joystick/Core/Src/SimonGame.c:408-437 | the poll loop returns pressed iff the wait collects a colour, and then returns that colour |
| `SimonGame.Game.constructor` | workspace/lcd+joystick/Core/Src/SimonGame.c:17-21 | the state is WELCOME and every info field and buffer is zero; the statics start at 0 and IDLE |
| `SimonGame.Game.Compare` | workspace/lcd+joystick/Core/Src/SimonGame.c:62-86 | sets GAME_RESULT iff the comparison rule finds a difference; otherwise the state is unchanged; nothing else is written |
| `SimonGame.Game.ComputerTurn` | workspace/lcd+joystick/Core/Src/SimonGame.c:350-391 | positions below the length get the draws mod 4; positions at or above it are untouched; the LED trace is the playback of the drawn colours |
| `SimonGame.Game.PlayerTurn` | workspace/lcd+joystick/Core/Src/SimonGame.c:398-445 | the player's row gets the collected colours and keeps the rest; the state becomes GAME_RESULT iff the turn timed out; the other row is not in the frame |
| `SimonGame.Game.WelcomePhase` | workspace/lcd+joystick/Core/Src/SimonGame.c:103-118 | WELCOME moves to START and resets the tick counter to 0 |
| `SimonGame.Game.StartPhase` | workspace/lcd+joystick/Core/Src/SimonGame.c:122-134 | START moves to PLAYER_MENU iff a press is seen while the counter is below 100, else to SLEEP; the polls never see a tick below the counter's value on entry |
| `SimonGame.Game.PlayerMenuPhase` | workspace/lcd+joystick/Core/Src/SimonGame.c:137-143 | PLAYER_MENU moves to PLAYER_SELECT |
| `SimonGame.Game.PlayerSelectPhase` | workspace/lcd+joystick/Core/Src/SimonGame.c:146-205 | applies the sticky hold to the classified direction; a new UP selects 1 player and a new DOWN 2; lastDirection only becomes UP or DOWN; a press starts ONE_PLAYER iff numPlayers is 1 (else TWO_PLAYERS) with round 1, length 1, speed 1000, and seeds only in one-player mode; scores are kept |
| `SimonGame.Game.TrackDirection` | workspace/lcd+joystick/Core/Src/SimonGame.c:152-183 | the hold count and the selection follow the sticky direction; the hold count stays within 0..3 |
| `SimonGame.Game.ConfirmSelection` | workspace/lcd+joystick/Core/Src/SimonGame.c:187-204 | without a press nothing changes; with a press the mode and the round, length and speed start values are set |
| `SimonGame.Game.OnePlayerRound` | workspace/lcd+joystick/Core/Src/SimonGame.c:211-239 | on success round and length go up by exactly 1 and the delay drops by 5 only above 400; on a timeout or mismatch the state becomes GAME_RESULT and round, length and delay are unchanged; scores and player 2's row are never modified |
| `SimonGame.Game.TwoPlayerRound` | workspace/lcd+joystick/Core/Src/SimonGame.c:241-283 | player 1's score goes up by exactly 1 iff round > 1 and player 1's comparison passes; player 2's score never changes; unless player 1 timed out the length grows before player 2's turn, even after a mismatch; round advances and length grows again only when both turns pass |
| `SimonGame.Game.ScoreFirstPlayer` | workspace/lcd+joystick/Core/Src/SimonGame.c:256-261 | from round 2 on, a clean comparison scores one point for player 1 and a failed one sets GAME_RESULT |
| `SimonGame.Game.SecondPlayerTurn` | workspace/lcd+joystick/Core/Src/SimonGame.c:264-281 | player 2 plays one more position than player 1; when both pass the round advances and the length grows by a second 1 |
| `SimonGame.Game.GameResultPhase` | workspace/lcd+joystick/Core/Src/SimonGame.c:285-318 | GAME_RESULT moves to PLAYER_MENU; the two-player screen shows the verdict on the scores, the one-player screen shows none |
| `SimonGame.Game.SleepPhase` | workspace/lcd+joystick/Core/Src/SimonGame.c:328-337 | SLEEP moves to WELCOME on a press and otherwise stays |
| `SimonGame.Game.Run` | workspace/lcd+joystick/Core/Src/SimonGame.c:93-343 | each phase moves to its successor as listed above; PLAY_AGAIN moves to START; any other state moves to SLEEP |

## Left out

- SimonGame.Game.Run: its contract gives the next phase and what happens to the scores. The full effect of each phase is stated by that phase's own method, which `Run` calls.
- Display output: `displayOnLCD`, the `LCD_*` calls, the `snprintf` texts and all `HAL_Delay` pacing are I/O and timing. The only screen text kept is the two-player verdict line.
- The timer interrupt `HAL_TIM_PeriodElapsedCallback` and its concurrent increment of `buttonTimer`. Ticks are inputs, recorded per poll. The 20 ms settle delay and how long polls take are not modelled.
- `rand` and `srand`: the generator is a foreign library. Draws are an input sequence, and the seed is only recorded in the field `seed`.
- ADC and GPIO access (`HAL_ADC_ConfigChannel`, start, poll and stop, `HAL_GPIO_ReadPin`, `HAL_GPIO_WritePin`). Reads become inputs and LED writes become a returned trace.
- `SimonGame.h` is not part of this model, so the integer widths of the `GameInfo` fields are unknown. `round`, `sequenceLength` and the scores are unbounded integers, and wrap-around is not modelled. The buffers hold 100 entries, as in the earlier `GameInfo` in main.c. The methods therefore require `sequenceLength <= 100`, or `sequenceLength + 1 <= 100` in two-player mode, because the source itself never bounds the length.
- ADC values are limited to 12 bits (0..4095, as the comment of `Joystick_ReadXY` states). With that limit the 32-bit sum and the 16-bit casts in `joystick.c` never truncate.
- When the first read of a debounce is high, the second read is never taken. The model still carries a value for it, and `Pins.Debounce` ignores that value.
- The file-static `centerX` of `joystick.c` is a field of the joystick handle. The statics of `Game_Run` are fields of `Game`.
- main.c (its clock set-up and its earlier test-only phase machine) and gpio.c (pin configuration) are outside the controller.

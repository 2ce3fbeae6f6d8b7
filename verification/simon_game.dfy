/** The game controller: the session object with its phase, bookkeeping and
    buffers, the comparator, the computer and player turns, and the phase
    machine run once per pass of the main loop. */
module SimonGame {
  import opened Pins
  import opened Joystick
  import opened Simon

  /** The game phases. `Other` stands for any value of the state variable
      that none of the nine phases names. */
  datatype GameState =
    | Welcome | Start | PlayerMenu | PlayerSelect | OnePlayer | TwoPlayers
    | GameResult | PlayAgain | Sleep | Other(code: int)

  /** The seed handed to the random source: the XOR of two 16-bit readings. */
  function SeedOf(x: int, y: int): (s: bv16)
    requires 0 <= x < 0x1_0000 && 0 <= y < 0x1_0000
    ensures s ^ (y as bv16) == x as bv16
  {
    (x as bv16) ^ (y as bv16)
  }

  /** Everything the hardware supplies to one pass of the phase machine. */
  datatype StepInput = StepInput(
    startPolls: seq<PressPoll>,     // the START wait's polls of the joystick button
    stickX: seq<Conversion>,        // the X-channel conversions of the direction read
    press: PinPair,                 // the joystick button reads of PLAYER_SELECT or SLEEP
    seedX: seq<Conversion>,         // the conversions read for the seed
    seedY: seq<Conversion>,
    draws: seq<nat>,                // the values rand() returns, in order
    turn1: seq<seq<PanelPoll>>,     // player 1's polls, one trace per position
    turn2: seq<seq<PanelPoll>>)     // player 2's polls, one trace per position

  /** A button poll loop: polls the four buttons in the order red, blue,
      yellow, green until one passes the debounce or the guard sees the
      timeout reached. */
  method PollButtons(trace: seq<PanelPoll>) returns (pressed: bool, color: Color)
    ensures pressed <==> WaitForColor(trace).Some?
    ensures pressed ==> WaitForColor(trace) == Some(color)
  {
    pressed, color := false, Red;
    var j := 0;
    while j < |trace| && trace[j].tick < InputTimeout && !pressed
      invariant 0 <= j <= |trace|
      invariant !pressed ==> WaitForColor(trace[j..]) == WaitForColor(trace)
      invariant pressed ==> WaitForColor(trace) == Some(color)
    {
      var p := trace[j];
      assert trace[j..][1..] == trace[j + 1..];
      if Debounce(p.red) {
        color, pressed := Red, true;
      } else if Debounce(p.blue) {
        color, pressed := Blue, true;
      } else if Debounce(p.yellow) {
        color, pressed := Yellow, true;
      } else if Debounce(p.green) {
        color, pressed := Green, true;
      }
      j := j + 1;
    }
  }

  class Game {
    var state: GameState
    var numPlayers: int
    var round: int
    var sequenceLength: int
    var sequenceSpeed: int
    /** The computer's colour codes. */
    var sequence: array<int>
    /** `playerInputs[0]` and `playerInputs[1]`. */
    var inputs1: array<int>
    var inputs2: array<int>
    var playerScores: seq<int>
    /** The tick counter as last reset by the main loop. */
    var buttonTimer: int
    /** Static state of the phase machine: the sticky-direction hold count
        and the last direction acted on. */
    var directionDelay: int
    var lastDirection: Direction
    /** The value last passed to `srand`. */
    var seed: bv16

    ghost predicate Valid()
      reads this
    {
      sequence.Length == Capacity && inputs1.Length == Capacity && inputs2.Length == Capacity &&
      sequence != inputs1 && sequence != inputs2 && inputs1 != inputs2 &&
      |playerScores| == 2 && 0 <= directionDelay <= 3 && 0 <= sequenceLength
    }

    /** The input row of player 1 or 2. */
    function Row(player: int): array<int>
      reads this
    {
      if player == 1 then inputs1 else inputs2
    }

    /** The game as initialised: phase WELCOME, every bookkeeping field and
        buffer zero; the phase machine's statics at their start values. */
    constructor ()
      ensures Valid()
      ensures state == Welcome
      ensures numPlayers == 0 && round == 0 && sequenceLength == 0 && sequenceSpeed == 0
      ensures playerScores == [0, 0]
      ensures forall i :: 0 <= i < Capacity ==> sequence[i] == 0 && inputs1[i] == 0 && inputs2[i] == 0
      ensures directionDelay == 0 && lastDirection == Idle && buttonTimer == 0
      ensures fresh(sequence) && fresh(inputs1) && fresh(inputs2)
    {
      state := Welcome;
      numPlayers, round, sequenceLength, sequenceSpeed := 0, 0, 0, 0;
      sequence := new int[Capacity](_ => 0);
      inputs1 := new int[Capacity](_ => 0);
      inputs2 := new int[Capacity](_ => 0);
      playerScores := [0, 0];
      buttonTimer := 0;
      directionDelay, lastDirection := 0, Idle;
      seed := 0;
    }

    /** Compares the sequences; sets GAME_RESULT on a difference and changes
        nothing on a clean pass. */
    method Compare()
      requires Valid() && sequenceLength <= Capacity
      modifies this`state
      ensures state == if CompareFails(numPlayers, sequence[..], inputs1[..], inputs2[..], sequenceLength)
        then GameResult else old(state)
    {
      if numPlayers == 1 {
        var i := 0;
        while i < sequenceLength
          invariant 0 <= i <= sequenceLength
          invariant forall k :: 0 <= k < i ==> sequence[k] == inputs1[k]
        {
          if sequence[i] != inputs1[i] {
            assert sequence[..][i] != inputs1[..][i];
            state := GameResult;
            return;
          }
          i := i + 1;
        }
      } else {
        var i := 0;
        while i < sequenceLength - 1
          invariant 0 <= i <= if sequenceLength > 0 then sequenceLength - 1 else 0
          invariant forall k :: 0 <= k < i ==> inputs1[k] == inputs2[k]
        {
          if inputs1[i] != inputs2[i] {
            assert inputs1[..][i] != inputs2[..][i];
            state := GameResult;
            return;
          }
          i := i + 1;
        }
      }
    }

    /** The computer's turn: stores draw `i` modulo 4 at each position below
        the length, then plays the stored colours; returns the LED writes. */
    method ComputerTurn(draws: seq<nat>) returns (leds: seq<LedWrite>)
      requires Valid() && sequenceLength <= Capacity && sequenceLength <= |draws|
      modifies sequence
      ensures sequence[..] == Overwrite(old(sequence[..]), Draws(draws, sequenceLength))
      ensures leds == Playback(Draws(draws, sequenceLength))
    {
      var i := 0;
      while i < sequenceLength
        invariant 0 <= i <= sequenceLength
        invariant forall k :: 0 <= k < i ==> sequence[k] == draws[k] % 4
        invariant forall k :: i <= k < Capacity ==> sequence[k] == old(sequence[k])
      {
        sequence[i] := draws[i] % 4;
        i := i + 1;
      }
      assert sequence[..] == Overwrite(old(sequence[..]), Draws(draws, sequenceLength));
      leds := [];
      i := 0;
      while i < sequenceLength
        invariant 0 <= i <= sequenceLength
        invariant leds == Playback(sequence[..i])
      {
        assert sequence[..i + 1][..i] == sequence[..i];
        match sequence[i] {
          case 0 =>
            leds := leds + [LedWrite(Red, true), LedWrite(Red, false)];
          case 1 =>
            leds := leds + [LedWrite(Blue, true), LedWrite(Blue, false)];
          case 2 =>
            leds := leds + [LedWrite(Yellow, true), LedWrite(Yellow, false)];
          case 3 =>
            leds := leds + [LedWrite(Green, true), LedWrite(Green, false)];
          case _ =>
        }
        i := i + 1;
      }
      assert sequence[..sequenceLength] == Draws(draws, sequenceLength);
    }

    /** A player's turn: for each position, resets the timer and waits for a
        colour; records it in the player's row, or on a timeout sets
        GAME_RESULT and stops. */
    method PlayerTurn(player: int, turn: seq<seq<PanelPoll>>)
      requires Valid() && (player == 1 || player == 2)
      requires sequenceLength <= Capacity && sequenceLength <= |turn|
      modifies this`state, this`buttonTimer, Row(player)
      ensures Row(player)[..] == Overwrite(old(Row(player)[..]), Collect(turn, sequenceLength))
      ensures state == if TimedOut(turn, sequenceLength) then GameResult else old(state)
    {
      var row := Row(player);
      var i := 0;
      while i < sequenceLength
        invariant 0 <= i <= sequenceLength
        invariant |Collect(turn, i)| == i
        invariant forall k :: 0 <= k < i ==> row[k] == Collect(turn, i)[k]
        invariant forall k :: i <= k < Capacity ==> row[k] == old(row[k])
        invariant state == old(state)
      {
        buttonTimer := 0;
        var pressed, color := PollButtons(turn[i]);
        if !pressed {
          CollectStops(turn, i, sequenceLength);
          assert row[..] == Overwrite(old(row[..]), Collect(turn, sequenceLength));
          state := GameResult;
          return;
        }
        row[i] := color;
        i := i + 1;
      }
      assert row[..] == Overwrite(old(row[..]), Collect(turn, sequenceLength));
    }

    /** WELCOME: after the banners, moves to START and resets the tick counter. */
    method WelcomePhase()
      requires state == Welcome
      modifies this`state, this`buttonTimer
      ensures state == Start && buttonTimer == 0
    {
      state := Start;
      buttonTimer := 0;
    }

    /** START: waits for the joystick press while the tick counter is below
        100; PLAYER_MENU on a press, SLEEP otherwise. The counter only counts
        up from its value on entry, so no poll sees a tick below it. */
    method StartPhase(joystick: Handle, trace: seq<PressPoll>)
      requires state == Start
      requires forall k :: 0 <= k < |trace| ==> buttonTimer <= trace[k].tick
      modifies this`state
      ensures state == if PressedWithin(trace, StartTimeout) then PlayerMenu else Sleep
    {
      var j := 0;
      while j < |trace| && trace[j].tick < StartTimeout
        invariant 0 <= j <= |trace|
        invariant state == Start
        invariant PressedWithin(trace[j..], StartTimeout) == PressedWithin(trace, StartTimeout)
      {
        assert trace[j..][1..] == trace[j + 1..];
        var pressed := joystick.Pressed(trace[j].press);
        if pressed {
          state := PlayerMenu;
          break;
        }
        j := j + 1;
      }
      if state != PlayerMenu {
        state := Sleep;
      }
    }

    /** PLAYER_MENU: shows the menu and moves to PLAYER_SELECT. */
    method PlayerMenuPhase()
      requires state == PlayerMenu
      modifies this`state
      ensures state == PlayerSelect
    {
      state := PlayerSelect;
    }

    /** PLAYER_SELECT: reads the direction with the sticky hold, selects one
        player on a new UP and two on a new DOWN, and on a press starts the
        selected mode at round 1, length 1, speed 1000 (seeding the random
        source from the stick in one-player mode). Scores are kept. */
    method PlayerSelectPhase(joystick: Handle, stickX: seq<Conversion>, press: PinPair,
                             seedX: seq<Conversion>, seedY: seq<Conversion>)
      requires Valid() && state == PlayerSelect
      requires |stickX| == AdcSamples && |seedX| == AdcSamples && |seedY| == AdcSamples
      modifies this`state, this`numPlayers, this`round, this`sequenceLength, this`sequenceSpeed,
        this`directionDelay, this`lastDirection, this`seed
      ensures Valid()
      ensures var held := StickyDirection(old(directionDelay), old(lastDirection),
                                          Classify(Average(stickX), joystick.centerX));
        directionDelay == held.1 &&
        if held.0 != Idle && held.0 != old(lastDirection) then
          lastDirection == held.0 && numPlayers == (if held.0 == Up then 1 else 2)
        else
          lastDirection == old(lastDirection) && numPlayers == old(numPlayers)
      ensures lastDirection == old(lastDirection) || lastDirection == Up || lastDirection == Down
      ensures if Debounce(press) then
          state == (if numPlayers == 1 then OnePlayer else TwoPlayers) &&
          round == 1 && sequenceLength == 1 && sequenceSpeed == InitialSpeed
        else
          state == PlayerSelect && round == old(round) &&
          sequenceLength == old(sequenceLength) && sequenceSpeed == old(sequenceSpeed)
      ensures seed == if Debounce(press) && numPlayers == 1
        then SeedOf(Average(seedX), Average(seedY)) else old(seed)
      ensures playerScores == old(playerScores)
    {
      var direction := joystick.GetDirection(stickX);
      TrackDirection(direction);
      ConfirmSelection(joystick, press, seedX, seedY);
    }

    /** The direction half of PLAYER_SELECT: the sticky hold, then a new UP
        selects one player and a new DOWN two. */
    method TrackDirection(raw: Direction)
      requires Valid()
      modifies this`directionDelay, this`lastDirection, this`numPlayers
      ensures Valid()
      ensures var held := StickyDirection(old(directionDelay), old(lastDirection), raw);
        directionDelay == held.1 &&
        if held.0 != Idle && held.0 != old(lastDirection) then
          lastDirection == held.0 && numPlayers == (if held.0 == Up then 1 else 2)
        else
          lastDirection == old(lastDirection) && numPlayers == old(numPlayers)
    {
      var direction := raw;
      if directionDelay < 3 && lastDirection == Up && direction == Idle {
        direction := Up;
        directionDelay := directionDelay + 1;
      } else {
        directionDelay := 0;
      }
      if direction != Idle && direction != lastDirection {
        if direction == Up {
          numPlayers := 1;
        } else if direction == Down {
          numPlayers := 2;
        }
        lastDirection := direction;
      }
    }

    /** The press half of PLAYER_SELECT. */
    method ConfirmSelection(joystick: Handle, press: PinPair, seedX: seq<Conversion>, seedY: seq<Conversion>)
      requires |seedX| == AdcSamples && |seedY| == AdcSamples
      modifies this`state, this`round, this`sequenceLength, this`sequenceSpeed, this`seed
      ensures if Debounce(press) then
          state == (if numPlayers == 1 then OnePlayer else TwoPlayers) &&
          round == 1 && sequenceLength == 1 && sequenceSpeed == InitialSpeed
        else
          state == old(state) && round == old(round) &&
          sequenceLength == old(sequenceLength) && sequenceSpeed == old(sequenceSpeed)
      ensures seed == if Debounce(press) && numPlayers == 1
        then SeedOf(Average(seedX), Average(seedY)) else old(seed)
    {
      var pressed := joystick.Pressed(press);
      if pressed {
        if numPlayers == 1 {
          state := OnePlayer;
          var xy := new int[2];
          joystick.ReadXY(xy, seedX, seedY);
          seed := SeedOf(xy[0], xy[1]);
        } else {
          state := TwoPlayers;
        }
        round := 1;
        sequenceLength := 1;
        sequenceSpeed := InitialSpeed;
      }
    }

    /** ONE_PLAYER: the computer's turn, player 1's turn, then the comparison;
        on success the round and the length go up by one and the delay drops
        by 5 while above 400; on a timeout or mismatch GAME_RESULT with the
        bookkeeping unchanged. Scores are never touched. */
    method OnePlayerRound(draws: seq<nat>, turn: seq<seq<PanelPoll>>) returns (leds: seq<LedWrite>)
      requires Valid() && state == OnePlayer
      requires sequenceLength <= Capacity && sequenceLength <= |draws| && sequenceLength <= |turn|
      modifies this`state, this`round, this`sequenceLength, this`sequenceSpeed, this`buttonTimer,
        sequence, inputs1
      ensures Valid()
      ensures sequence[..] == Overwrite(old(sequence[..]), Draws(draws, old(sequenceLength)))
      ensures leds == Playback(Draws(draws, old(sequenceLength)))
      ensures inputs1[..] == Overwrite(old(inputs1[..]), Collect(turn, old(sequenceLength)))
      ensures inputs2[..] == old(inputs2[..]) && playerScores == old(playerScores)
      ensures var failed := TimedOut(turn, old(sequenceLength)) ||
          CompareFails(numPlayers, sequence[..], inputs1[..], inputs2[..], old(sequenceLength));
        if failed then
          state == GameResult && round == old(round) &&
          sequenceLength == old(sequenceLength) && sequenceSpeed == old(sequenceSpeed)
        else
          state == OnePlayer && round == old(round) + 1 &&
          sequenceLength == old(sequenceLength) + 1 && sequenceSpeed == NextSpeed(old(sequenceSpeed))
    {
      leds := ComputerTurn(draws);
      PlayerTurn(1, turn);
      if state != GameResult {
        Compare();
        if state != GameResult {
          round := round + 1;
          sequenceLength := sequenceLength + 1;
          if sequenceSpeed > SpeedFloor {
            sequenceSpeed := sequenceSpeed - SpeedStep;
          }
        }
      }
    }

    /** TWO_PLAYERS: player 1's turn; from round 2 on, player 1's row is
        compared with player 2's previous row and a clean pass scores a point
        for player 1; unless player 1 timed out, the length grows by one and
        player 2 plays (even after player 1's mismatch); when both turns pass,
        the round advances and the length grows by a second one. */
    method TwoPlayerRound(turn1: seq<seq<PanelPoll>>, turn2: seq<seq<PanelPoll>>)
      requires Valid() && state == TwoPlayers
      requires sequenceLength + 1 <= Capacity
      requires sequenceLength <= |turn1| && sequenceLength + 1 <= |turn2|
      modifies this`state, this`round, this`sequenceLength, this`playerScores, this`buttonTimer,
        inputs1, inputs2
      ensures Valid()
      ensures sequence[..] == old(sequence[..]) && sequenceSpeed == old(sequenceSpeed)
      ensures inputs1[..] == Overwrite(old(inputs1[..]), Collect(turn1, old(sequenceLength)))
      ensures playerScores[1] == old(playerScores[1])
      ensures TimedOut(turn1, old(sequenceLength)) ==>
        state == GameResult && inputs2[..] == old(inputs2[..]) && round == old(round) &&
        sequenceLength == old(sequenceLength) && playerScores == old(playerScores)
      ensures !TimedOut(turn1, old(sequenceLength)) ==>
        var scored := old(round) > 1 &&
          !CompareFails(numPlayers, sequence[..], inputs1[..], old(inputs2[..]), old(sequenceLength));
        var passed := (old(round) > 1 ==> scored) &&
          !TimedOut(turn2, old(sequenceLength) + 1) &&
          !CompareFails(numPlayers, sequence[..], inputs1[..], inputs2[..], old(sequenceLength) + 1);
        playerScores == (if scored then old(playerScores)[0 := old(playerScores[0]) + 1] else old(playerScores)) &&
        inputs2[..] == Overwrite(old(inputs2[..]), Collect(turn2, old(sequenceLength) + 1)) &&
        if passed then
          state == TwoPlayers && round == old(round) + 1 && sequenceLength == old(sequenceLength) + 2
        else
          state == GameResult && round == old(round) && sequenceLength == old(sequenceLength) + 1
    {
      PlayerTurn(1, turn1);
      if state != GameResult {
        ScoreFirstPlayer();
        SecondPlayerTurn(turn2);
      }
    }

    /** From round 2 on, compares player 1's row with player 2's previous row
        and scores a point for player 1 on a clean pass. */
    method ScoreFirstPlayer()
      requires Valid() && state != GameResult && sequenceLength <= Capacity
      modifies this`state, this`playerScores
      ensures Valid()
      ensures var scored := round > 1 &&
          !CompareFails(numPlayers, sequence[..], inputs1[..], inputs2[..], sequenceLength);
        playerScores == (if scored then old(playerScores)[0 := old(playerScores[0]) + 1] else old(playerScores)) &&
        state == (if round > 1 && !scored then GameResult else old(state))
    {
      if round > 1 {
        Compare();
        if state != GameResult {
          playerScores := playerScores[0 := playerScores[0] + 1];
        }
      }
    }

    /** Player 2's half of a two-player round: one more position, player 2's
        turn, then the comparison; both passing advances the round and adds
        a second position. */
    method SecondPlayerTurn(turn2: seq<seq<PanelPoll>>)
      requires Valid() && sequenceLength + 1 <= Capacity && sequenceLength + 1 <= |turn2|
      modifies this`state, this`round, this`sequenceLength, this`buttonTimer, inputs2
      ensures Valid()
      ensures inputs2[..] == Overwrite(old(inputs2[..]), Collect(turn2, old(sequenceLength) + 1))
      ensures var passed := old(state) != GameResult &&
          !TimedOut(turn2, old(sequenceLength) + 1) &&
          !CompareFails(numPlayers, sequence[..], inputs1[..], inputs2[..], old(sequenceLength) + 1);
        if passed then
          state == old(state) && round == old(round) + 1 && sequenceLength == old(sequenceLength) + 2
        else
          state == GameResult && round == old(round) && sequenceLength == old(sequenceLength) + 1
    {
      sequenceLength := sequenceLength + 1;
      PlayerTurn(2, turn2);
      if state != GameResult {
        Compare();
        if state != GameResult {
          round := round + 1;
          sequenceLength := sequenceLength + 1;
        }
      }
    }

    /** GAME_RESULT: shows the score (one player) or the verdict and both
        scores (two players), then moves to PLAYER_MENU. Returns the verdict
        line of the two-player screen. */
    method GameResultPhase() returns (verdict: Option<string>)
      requires Valid() && state == GameResult
      modifies this`state
      ensures state == PlayerMenu
      ensures verdict == if numPlayers == 1 then None else Some(Verdict(playerScores[0], playerScores[1]))
    {
      if numPlayers == 1 {
        verdict := None;
      } else {
        verdict := Some(Verdict(playerScores[0], playerScores[1]));
      }
      state := PlayerMenu;
    }

    /** SLEEP: wakes to WELCOME on a joystick press, otherwise stays. */
    method SleepPhase(joystick: Handle, press: PinPair)
      requires state == Sleep
      modifies this`state
      ensures state == if Debounce(press) then Welcome else Sleep
    {
      var pressed := joystick.Pressed(press);
      if pressed {
        state := Welcome;
      }
    }

    /** One pass of the phase machine: runs the current phase once. Returns
        the LED writes of a computer turn and the two-player verdict line. */
    method Run(joystick: Handle, inp: StepInput) returns (leds: seq<LedWrite>, verdict: Option<string>)
      requires Valid()
      requires state == Start ==>
        forall k :: 0 <= k < |inp.startPolls| ==> buttonTimer <= inp.startPolls[k].tick
      requires state == PlayerSelect ==>
        |inp.stickX| == AdcSamples && |inp.seedX| == AdcSamples && |inp.seedY| == AdcSamples
      requires state == OnePlayer ==>
        sequenceLength <= Capacity && sequenceLength <= |inp.draws| && sequenceLength <= |inp.turn1|
      requires state == TwoPlayers ==>
        sequenceLength + 1 <= Capacity && sequenceLength <= |inp.turn1| && sequenceLength + 1 <= |inp.turn2|
      modifies this, sequence, inputs1, inputs2
      ensures Valid()
      ensures sequence == old(sequence) && inputs1 == old(inputs1) && inputs2 == old(inputs2)
      ensures old(state) == Welcome ==> state == Start && buttonTimer == 0
      ensures old(state) == Start ==>
        state == if PressedWithin(inp.startPolls, StartTimeout) then PlayerMenu else Sleep
      ensures old(state) == PlayerMenu ==> state == PlayerSelect
      ensures old(state) == PlayerSelect ==>
        state == (if !Debounce(inp.press) then PlayerSelect else if numPlayers == 1 then OnePlayer else TwoPlayers)
      ensures old(state) == OnePlayer ==>
        (state == OnePlayer || state == GameResult) && playerScores == old(playerScores)
      ensures old(state) == TwoPlayers ==>
        (state == TwoPlayers || state == GameResult) && playerScores[1] == old(playerScores[1])
      ensures old(state) == GameResult ==> state == PlayerMenu
      ensures old(state) == PlayAgain ==> state == Start
      ensures old(state) == Sleep ==> state == if Debounce(inp.press) then Welcome else Sleep
      ensures old(state).Other? ==> state == Sleep
    {
      leds, verdict := [], None;
      match state {
        case Welcome =>
          WelcomePhase();
        case Start =>
          StartPhase(joystick, inp.startPolls);
        case PlayerMenu =>
          PlayerMenuPhase();
        case PlayerSelect =>
          PlayerSelectPhase(joystick, inp.stickX, inp.press, inp.seedX, inp.seedY);
        case OnePlayer =>
          leds := OnePlayerRound(inp.draws, inp.turn1);
        case TwoPlayers =>
          TwoPlayerRound(inp.turn1, inp.turn2);
        case GameResult =>
          verdict := GameResultPhase();
        case PlayAgain =>
          state := Start;
        case Sleep =>
          SleepPhase(joystick, inp.press);
        case Other(_) =>
          state := Sleep;
      }
    }
  }
}

/** The game rules as values: colours, the polls a bounded wait observes,
    what a player turn collects, the LED trace of a playback, the
    comparison rule and the speed schedule. The class in module SimonGame
    runs these rules step by step on its arrays. */
module Simon {
  import opened Pins
  import opened Joystick

  datatype Option<T> = None | Some(value: T)

  /** Length of `sequence` and of each `playerInputs` row. */
  const Capacity := 100
  /** Ticks the START phase waits for the joystick press (10 s). */
  const StartTimeout := 100
  /** Ticks a player has for each colour (5 s). */
  const InputTimeout := 50
  /** Playback delay per colour at the start of a game, in milliseconds. */
  const InitialSpeed := 1000
  /** The playback delay is decreased only while it is above this value. */
  const SpeedFloor := 400
  /** Decrease of the playback delay per successful one-player round. */
  const SpeedStep := 5

  /** Colour codes: 0 red, 1 blue, 2 yellow, 3 green. */
  type Color = c: int | 0 <= c < 4
  const Red: Color := 0
  const Blue: Color := 1
  const Yellow: Color := 2
  const Green: Color := 3

  /** One pass of a wait for the joystick press: `tick` is the timer value
      the loop guard saw, `press` the two reads of the button. */
  datatype PressPoll = PressPoll(tick: int, press: PinPair)

  /** One pass of the colour-button poll loop: `tick` is the timer value the
      loop guard saw, then the debounce reads of the four buttons in polling
      order (reads after an accepted button are never taken). */
  datatype PanelPoll = PanelPoll(tick: int, red: PinPair, blue: PinPair, yellow: PinPair, green: PinPair)

  /** The colour one pass of the poll loop accepts: the first button, in the
      order red, blue, yellow, green, that passes the debounce. */
  function PollColor(p: PanelPoll): (r: Option<Color>)
    ensures r == Some(Red) <==> Debounce(p.red)
    ensures r == Some(Blue) <==> !Debounce(p.red) && Debounce(p.blue)
    ensures r == Some(Yellow) <==> !Debounce(p.red) && !Debounce(p.blue) && Debounce(p.yellow)
    ensures r == Some(Green) <==> !Debounce(p.red) && !Debounce(p.blue) && !Debounce(p.yellow) && Debounce(p.green)
    ensures r == None <==> !Debounce(p.red) && !Debounce(p.blue) && !Debounce(p.yellow) && !Debounce(p.green)
  {
    if Debounce(p.red) then Some(Red)
    else if Debounce(p.blue) then Some(Blue)
    else if Debounce(p.yellow) then Some(Yellow)
    else if Debounce(p.green) then Some(Green)
    else None
  }

  /** The wait for one colour. The trace lists the passes of the poll loop;
      the wait ends at the first pass whose guard sees the timeout reached,
      or when the trace ends (the timer has then expired), or at the first
      pass that accepts a colour. */
  function WaitForColor(trace: seq<PanelPoll>): Option<Color>
  {
    if trace == [] || trace[0].tick >= InputTimeout then None
    else if PollColor(trace[0]).Some? then PollColor(trace[0])
    else WaitForColor(trace[1..])
  }

  /** The pass `j` is reached before the timeout and accepts nothing earlier. */
  ghost predicate FirstAcceptedAt(trace: seq<PanelPoll>, j: int)
  {
    0 <= j < |trace| &&
    (forall k :: 0 <= k <= j ==> trace[k].tick < InputTimeout) &&
    (forall k :: 0 <= k < j ==> PollColor(trace[k]) == None) &&
    PollColor(trace[j]).Some?
  }

  /** A colour is collected exactly when some pass before the timeout accepts
      it and every earlier pass accepted nothing. */
  lemma {:induction false} WaitForColorSpec(trace: seq<PanelPoll>, c: Color)
    ensures WaitForColor(trace) == Some(c) <==>
      exists j :: FirstAcceptedAt(trace, j) && PollColor(trace[j]) == Some(c)
  {
    if trace == [] {
    } else if trace[0].tick >= InputTimeout {
    } else if PollColor(trace[0]).Some? {
      if WaitForColor(trace) == Some(c) {
        assert FirstAcceptedAt(trace, 0);
      }
      if exists j :: FirstAcceptedAt(trace, j) && PollColor(trace[j]) == Some(c) {
        var j :| FirstAcceptedAt(trace, j) && PollColor(trace[j]) == Some(c);
        assert j == 0;
      }
    } else {
      var rest := trace[1..];
      WaitForColorSpec(rest, c);
      if WaitForColor(trace) == Some(c) {
        var j :| FirstAcceptedAt(rest, j) && PollColor(rest[j]) == Some(c);
        assert FirstAcceptedAt(trace, j + 1);
      }
      if exists j :: FirstAcceptedAt(trace, j) && PollColor(trace[j]) == Some(c) {
        var j :| FirstAcceptedAt(trace, j) && PollColor(trace[j]) == Some(c);
        assert j != 0;
        assert FirstAcceptedAt(rest, j - 1);
      }
    }
  }

  /** A button panel that never reports a press yields a timeout. */
  lemma {:induction false} NoPressTimesOut(trace: seq<PanelPoll>)
    requires forall k :: 0 <= k < |trace| ==> PollColor(trace[k]) == None
    ensures WaitForColor(trace) == None
  {
    if trace != [] && trace[0].tick < InputTimeout {
      NoPressTimesOut(trace[1..]);
    }
  }

  /** Whether a wait for the joystick press sees a press before `limit`. */
  function PressedWithin(trace: seq<PressPoll>, limit: int): bool
  {
    trace != [] && trace[0].tick < limit &&
    (Debounce(trace[0].press) || PressedWithin(trace[1..], limit))
  }

  /** A press is seen exactly when some pass whose guard and every earlier
      guard were below the limit reads the button low twice. */
  lemma {:induction false} PressedWithinSpec(trace: seq<PressPoll>, limit: int)
    ensures PressedWithin(trace, limit) <==>
      exists j :: 0 <= j < |trace| && Debounce(trace[j].press) &&
        forall k :: 0 <= k <= j ==> trace[k].tick < limit
  {
    if trace != [] && trace[0].tick < limit {
      var rest := trace[1..];
      PressedWithinSpec(rest, limit);
      if PressedWithin(trace, limit) && !Debounce(trace[0].press) {
        var j :| 0 <= j < |rest| && Debounce(rest[j].press) &&
          forall k :: 0 <= k <= j ==> rest[k].tick < limit;
        assert forall k :: 1 <= k <= j + 1 ==> trace[k] == rest[k - 1];
        assert Debounce(trace[j + 1].press);
      }
      if exists j :: 0 <= j < |trace| && Debounce(trace[j].press) &&
          forall k :: 0 <= k <= j ==> trace[k].tick < limit {
        var j :| 0 <= j < |trace| && Debounce(trace[j].press) &&
          forall k :: 0 <= k <= j ==> trace[k].tick < limit;
        if j > 0 && !Debounce(trace[0].press) {
          assert forall k :: 0 <= k <= j - 1 ==> rest[k] == trace[k + 1];
          assert Debounce(rest[j - 1].press);
        }
      }
    }
  }

  /** The START wait's boundary: a press seen at tick 99 counts, one seen
      only when the guard reads 100 does not. */
  lemma StartWaitBoundary(press: PinPair)
    requires Debounce(press)
    ensures PressedWithin([PressPoll(99, press)], StartTimeout)
    ensures !PressedWithin([PressPoll(100, press)], StartTimeout)
  {
  }

  /** The colours a player turn of `n` positions records: one per position
      until the first position whose wait times out. `turn[i]` is the poll
      trace of position `i`. */
  function Collect(turn: seq<seq<PanelPoll>>, n: nat): (got: seq<Color>)
    requires n <= |turn|
    ensures |got| <= n
    ensures forall i :: 0 <= i < |got| ==> WaitForColor(turn[i]) == Some(got[i])
    ensures |got| < n ==> WaitForColor(turn[|got|]) == None
  {
    if n == 0 then []
    else
      var prev := Collect(turn, n - 1);
      if |prev| < n - 1 then prev
      else match WaitForColor(turn[n - 1])
        case None => prev
        case Some(c) => prev + [c]
  }

  /** Whether the turn of `n` positions timed out somewhere. */
  predicate TimedOut(turn: seq<seq<PanelPoll>>, n: nat)
    requires n <= |turn|
  {
    |Collect(turn, n)| < n
  }

  /** A turn completes exactly when every position's wait collects a colour. */
  lemma {:induction false} CollectComplete(turn: seq<seq<PanelPoll>>, n: nat)
    requires n <= |turn|
    ensures !TimedOut(turn, n) <==> forall i :: 0 <= i < n ==> WaitForColor(turn[i]).Some?
  {
    if n > 0 {
      CollectComplete(turn, n - 1);
    }
  }

  /** Once a position times out, later positions add nothing. */
  lemma {:induction false} CollectStops(turn: seq<seq<PanelPoll>>, i: nat, n: nat)
    requires i < n <= |turn|
    requires |Collect(turn, i)| == i && WaitForColor(turn[i]) == None
    ensures Collect(turn, n) == Collect(turn, i)
  {
    if n > i + 1 {
      CollectStops(turn, i, n - 1);
    }
  }

  /** `prefix` written over the front of `base`, the rest of `base` kept. */
  function Overwrite<T>(base: seq<T>, prefix: seq<T>): (r: seq<T>)
    requires |prefix| <= |base|
    ensures |r| == |base|
    ensures forall i :: 0 <= i < |prefix| ==> r[i] == prefix[i]
    ensures forall i :: |prefix| <= i < |base| ==> r[i] == base[i]
  {
    prefix + base[|prefix|..]
  }

  /** The colours the computer draws: draw `i` modulo 4. `rand()` never
      returns a negative value, so C's `%` and Dafny's agree here. */
  function Draws(draws: seq<nat>, n: nat): (s: seq<Color>)
    requires n <= |draws|
    ensures |s| == n
    ensures forall i :: 0 <= i < n ==> s[i] == draws[i] % 4
  {
    seq(n, i requires 0 <= i < n => draws[i] % 4)
  }

  /** One write to an indicator LED. */
  datatype LedWrite = LedWrite(color: Color, on: bool)

  /** The writes that play one stored code: set then reset its LED; a code
      outside 0..3 lights nothing. */
  function Flash(code: int): seq<LedWrite>
  {
    if 0 <= code < 4 then [LedWrite(code, true), LedWrite(code, false)] else []
  }

  /** The LED writes of a playback of `s`, colour after colour. */
  function Playback(s: seq<int>): seq<LedWrite>
  {
    if s == [] then [] else Playback(s[..|s| - 1]) + Flash(s[|s| - 1])
  }

  /** Whether LED `c` is on after the writes of `trace`, all LEDs off before. */
  function LitAfter(trace: seq<LedWrite>, c: Color): bool
  {
    if trace == [] then false
    else if trace[|trace| - 1].color == c then trace[|trace| - 1].on
    else LitAfter(trace[..|trace| - 1], c)
  }

  /** Playing colours flashes each in order: write `2i` sets the LED of
      `s[i]` and write `2i + 1` resets it. */
  lemma {:induction false} PlaybackInOrder(s: seq<Color>)
    ensures |Playback(s)| == 2 * |s|
    ensures forall i :: 0 <= i < |s| ==>
      Playback(s)[2 * i] == LedWrite(s[i], true) && Playback(s)[2 * i + 1] == LedWrite(s[i], false)
  {
    if s != [] {
      var init := s[..|s| - 1];
      PlaybackInOrder(init);
      assert forall i :: 0 <= i < |init| ==> init[i] == s[i];
    }
  }

  /** No LED is left on after a playback. */
  lemma {:induction false} PlaybackLeavesLedsOff(s: seq<int>, c: Color)
    ensures !LitAfter(Playback(s), c)
  {
    if s != [] {
      var init := s[..|s| - 1];
      var x := s[|s| - 1];
      PlaybackLeavesLedsOff(init, c);
      if 0 <= x < 4 {
        var t := Playback(s);
        assert t == Playback(init) + [LedWrite(x, true), LedWrite(x, false)];
        assert t[..|t| - 1] == Playback(init) + [LedWrite(x, true)];
        assert t[..|t| - 1][..|t| - 2] == Playback(init);
      } else {
        assert Playback(s) == Playback(init);
      }
    }
  }

  /** Some of the first `n` positions of `a` and `b` differ. */
  ghost predicate Mismatch(a: seq<int>, b: seq<int>, n: int)
    requires n <= |a| && n <= |b|
  {
    exists i :: 0 <= i < n && a[i] != b[i]
  }

  /** The comparison rule: one player is checked against the computer's
      sequence over the full length; otherwise the two players' rows are
      checked against each other over one position fewer. */
  ghost predicate CompareFails(numPlayers: int, sequence: seq<int>, row0: seq<int>, row1: seq<int>, len: int)
    requires len <= |sequence| && len <= |row0| && len <= |row1|
  {
    if numPlayers == 1 then Mismatch(sequence, row0, len)
    else Mismatch(row0, row1, len - 1)
  }

  /** In two-player mode the last position is not checked by this
      comparison: rows equal on their first `len - 1` positions pass,
      whatever their last entries. */
  lemma TwoPlayerIgnoresLast(numPlayers: int, sequence: seq<int>, row0: seq<int>, row1: seq<int>, len: int)
    requires 1 <= len <= |sequence| && len <= |row0| && len <= |row1|
    requires numPlayers != 1
    requires row0[..len - 1] == row1[..len - 1]
    ensures !CompareFails(numPlayers, sequence, row0, row1, len)
  {
    assert forall i :: 0 <= i < len - 1 ==> row0[i] == row0[..len - 1][i] && row1[i] == row1[..len - 1][i];
  }

  /** The position a two-player comparison skips is checked by the next
      comparison, which runs one position longer. */
  lemma TwoPlayerNextComparisonChecks(numPlayers: int, sequence: seq<int>, row0: seq<int>, row1: seq<int>, len: int)
    requires 1 <= len && len + 1 <= |sequence| && len + 1 <= |row0| && len + 1 <= |row1|
    requires numPlayers != 1
    requires row0[len - 1] != row1[len - 1]
    ensures CompareFails(numPlayers, sequence, row0, row1, len + 1)
  {
  }

  /** One player fails exactly when the row is not the sequence's prefix. */
  lemma OnePlayerFailsIffDiffers(sequence: seq<int>, row0: seq<int>, row1: seq<int>, len: nat)
    requires len <= |sequence| && len <= |row0| && len <= |row1|
    ensures CompareFails(1, sequence, row0, row1, len) <==> sequence[..len] != row0[..len]
  {
    if sequence[..len] != row0[..len] {
      var i :| 0 <= i < len && sequence[..len][i] != row0[..len][i];
      assert sequence[i] != row0[i];
    }
  }

  /** A one-player round passes exactly when the player entered, in order,
      the colours the computer drew: a timeout and a wrong colour both fail. */
  lemma OnePlayerRoundPasses(sequence: seq<int>, row0: seq<int>, row1: seq<int>, draws: seq<nat>,
                             turn: seq<seq<PanelPoll>>, len: nat)
    requires len <= |sequence| && len <= |row0| && len <= |row1| && len <= |draws| && len <= |turn|
    ensures (TimedOut(turn, len) ||
             CompareFails(1, Overwrite(sequence, Draws(draws, len)), Overwrite(row0, Collect(turn, len)), row1, len))
      <==> Collect(turn, len) != Draws(draws, len)
  {
    var s := Overwrite(sequence, Draws(draws, len));
    var r := Overwrite(row0, Collect(turn, len));
    if !TimedOut(turn, len) {
      assert s[..len] == Draws(draws, len);
      assert r[..len] == Collect(turn, len);
      OnePlayerFailsIffDiffers(s, r, row1, len);
    }
  }

  /** The playback delay after a successful one-player round. */
  function NextSpeed(speed: int): int
  {
    if speed > SpeedFloor then speed - SpeedStep else speed
  }

  /** The playback delay after `n` successful one-player rounds of a game. */
  function SpeedAfter(n: nat): int
  {
    if n == 0 then InitialSpeed else NextSpeed(SpeedAfter(n - 1))
  }

  /** The delay falls by 5 ms per round from 1000 ms until it reaches 400 ms,
      and stays there. */
  lemma {:induction false} SpeedSchedule(n: nat)
    ensures SpeedAfter(n) == if InitialSpeed - SpeedStep * n > SpeedFloor then InitialSpeed - SpeedStep * n else SpeedFloor
    ensures SpeedAfter(n) >= SpeedFloor
  {
    if n > 0 {
      SpeedSchedule(n - 1);
    }
  }

  /** The player-selection direction after the sticky hold: an IDLE reading
      right after UP is read as UP while fewer than three such readings in a
      row have been replaced. Gives the direction to act on and the new hold
      count. */
  function StickyDirection(delay: int, last: Direction, raw: Direction): (r: (Direction, int))
    ensures 0 <= delay <= 3 ==> 0 <= r.1 <= 3
    ensures r.0 != raw <==> delay < 3 && last == Up && raw == Idle
    ensures r.0 != raw ==> r.0 == Up && r.1 == delay + 1
    ensures r.0 == raw ==> r.1 == 0
  {
    if delay < 3 && last == Up && raw == Idle then (Up, delay + 1) else (raw, 0)
  }

  /** After an UP, at most three IDLE readings in a row are held as UP; the
      fourth is seen as IDLE. */
  lemma HoldLastsThreeReadings()
    ensures StickyDirection(0, Up, Idle) == (Up, 1)
    ensures StickyDirection(1, Up, Idle) == (Up, 2)
    ensures StickyDirection(2, Up, Idle) == (Up, 3)
    ensures StickyDirection(3, Up, Idle) == (Idle, 0)
  {
  }

  /** The hold never changes the selection: the held direction triggers the
      selection update exactly when the raw direction does, and then with
      the raw direction's value. */
  lemma StickyHoldChangesNothing(delay: int, last: Direction, raw: Direction)
    ensures var held := StickyDirection(delay, last, raw).0;
      (held != Idle && held != last <==> raw != Idle && raw != last) &&
      (held != Idle && held != last ==> held == raw)
  {
  }

  /** The two-player verdict line of the result screen. */
  function Verdict(score1: int, score2: int): (line: string)
    ensures line == "Player 1 Wins" <==> score1 > score2
    ensures line == "Player 2 Wins" <==> score1 < score2
    ensures line == "Players Tied" <==> score1 == score2
  {
    if score1 > score2 then "Player 1 Wins"
    else if score1 < score2 then "Player 2 Wins"
    else "Players Tied"
  }
}

/** The joystick driver: an analog X/Y stick read through an ADC and a push
    button read through a GPIO line. Every ADC conversion and pin read is an
    input of the model: a conversion is a success flag with the converted
    value, a button read is a `PinPair`. */
module Joystick {
  import opened Pins

  /** Conversions averaged per channel read. */
  const AdcSamples := 16
  /** Channel reads averaged by calibration. */
  const CalibrationReads := 32
  /** Half-width of the dead zone around the calibrated centre. */
  const Deadzone := 80
  /** Largest value of the 12-bit converter (axes read 0..4095). */
  const AdcMax := 4095

  type Sample = v: int | 0 <= v <= AdcMax

  /** One start/poll/read cycle of the ADC: `ok` is whether the poll for the
      conversion returned HAL_OK within its timeout. */
  datatype Conversion = Conversion(ok: bool, value: Sample)

  datatype Direction = Up | Down | Idle

  /** What one conversion adds to the running sum: its value when it
      succeeded, nothing when it failed. */
  function Contribution(c: Conversion): (r: int)
    ensures 0 <= r <= AdcMax
  {
    if c.ok then c.value else 0
  }

  /** The sum of the values of the successful conversions among `cs`. */
  function SuccessfulSum(cs: seq<Conversion>): (s: int)
    ensures 0 <= s <= |cs| * AdcMax
  {
    if cs == [] then 0 else SuccessfulSum(cs[..|cs| - 1]) + Contribution(cs[|cs| - 1])
  }

  /** The averaged reading of one channel: the successful samples' sum
      divided by the full sample count, failed conversions included. */
  function Average(cs: seq<Conversion>): (avg: int)
    requires |cs| == AdcSamples
    ensures 0 <= avg <= AdcMax
  {
    SuccessfulSum(cs) / AdcSamples
  }

  /** The sum of the averaged readings of a sequence of channel readings. */
  function SumOfAverages(readings: seq<seq<Conversion>>): (s: int)
    requires forall i :: 0 <= i < |readings| ==> |readings[i]| == AdcSamples
    ensures 0 <= s <= |readings| * AdcMax
  {
    if readings == [] then 0
    else SumOfAverages(readings[..|readings| - 1]) + Average(readings[|readings| - 1])
  }

  /** The dead-zone classifier against the calibrated centre. */
  function Classify(x: int, centerX: int): (d: Direction)
    ensures d == Up <==> x - centerX > Deadzone
    ensures d == Down <==> x - centerX < -Deadzone
    ensures d == Idle <==> -Deadzone <= x - centerX <= Deadzone
  {
    var diff := x - centerX;
    if diff > Deadzone then Up
    else if diff < -Deadzone then Down
    else Idle
  }

  /** Reads one ADC channel: accumulates the successful conversions of 16
      attempts and divides by 16. The sum stays below 16 * 4096, so neither
      the 32-bit accumulator nor the 16-bit result truncates. */
  method ReadChannel(cs: seq<Conversion>) returns (avg: int)
    requires |cs| == AdcSamples
    ensures avg == SuccessfulSum(cs) / AdcSamples
    ensures 0 <= avg <= AdcMax
  {
    var sum := 0;
    var i := 0;
    while i < AdcSamples
      invariant 0 <= i <= AdcSamples
      invariant sum == SuccessfulSum(cs[..i])
    {
      assert cs[..i + 1][..i] == cs[..i];
      if cs[i].ok {
        sum := sum + cs[i].value;
      }
      i := i + 1;
    }
    assert cs[..AdcSamples] == cs;
    avg := sum / AdcSamples;
  }

  /** If no successful sample exceeds `m`, the sum is at most `|cs| * m`. */
  lemma {:induction false} SumAtMost(cs: seq<Conversion>, m: int)
    requires 0 <= m
    requires forall i :: 0 <= i < |cs| && cs[i].ok ==> cs[i].value <= m
    ensures SuccessfulSum(cs) <= |cs| * m
  {
    if cs != [] {
      var init := cs[..|cs| - 1];
      forall i | 0 <= i < |init| && init[i].ok
        ensures init[i].value <= m
      {
        assert init[i] == cs[i];
      }
      SumAtMost(init, m);
      assert |init| * m + m == |cs| * m;
    }
  }

  /** The averaged reading never exceeds the largest successful sample. */
  lemma AverageAtMostMax(cs: seq<Conversion>, m: int)
    requires |cs| == AdcSamples && 0 <= m
    requires forall i :: 0 <= i < |cs| && cs[i].ok ==> cs[i].value <= m
    ensures Average(cs) <= m
  {
    SumAtMost(cs, m);
  }

  /** Sixteen successful conversions of `v` sum to `|cs| * v`. */
  lemma {:induction false} SumOfConstant(cs: seq<Conversion>, v: Sample)
    requires forall i :: 0 <= i < |cs| ==> cs[i] == Conversion(true, v)
    ensures SuccessfulSum(cs) == |cs| * v
  {
    if cs != [] {
      var init := cs[..|cs| - 1];
      assert forall i :: 0 <= i < |init| ==> init[i] == cs[i];
      SumOfConstant(init, v);
      assert |init| * v + v == |cs| * v;
    }
  }

  /** When all sixteen conversions succeed with the same value, the reading
      is that value. */
  lemma AverageOfConstant(cs: seq<Conversion>, v: Sample)
    requires |cs| == AdcSamples
    requires forall i :: 0 <= i < |cs| ==> cs[i] == Conversion(true, v)
    ensures Average(cs) == v
  {
    SumOfConstant(cs, v);
  }

  /** Calibration over channel readings that all average `c` sums to
      `|readings| * c`, whatever their individual conversions were. */
  lemma {:induction false} SumOfAveragesConstant(readings: seq<seq<Conversion>>, c: Sample)
    requires forall i :: 0 <= i < |readings| ==> |readings[i]| == AdcSamples
    requires forall i :: 0 <= i < |readings| ==> Average(readings[i]) == c
    ensures SumOfAverages(readings) == |readings| * c
  {
    if readings != [] {
      var init := readings[..|readings| - 1];
      assert forall i :: 0 <= i < |init| ==> init[i] == readings[i];
      SumOfAveragesConstant(init, c);
      assert |init| * c + c == |readings| * c;
    }
  }

  /** The calibrated centre of 32 readings that all average `c` is `c`. */
  lemma CalibrationOfConstant(readings: seq<seq<Conversion>>, c: Sample)
    requires |readings| == CalibrationReads
    requires forall i :: 0 <= i < |readings| ==> |readings[i]| == AdcSamples
    requires forall i :: 0 <= i < |readings| ==> Average(readings[i]) == c
    ensures SumOfAverages(readings) / CalibrationReads == c
  {
    SumOfAveragesConstant(readings, c);
  }

  /** A stick at rest whose every conversion succeeds with `c` calibrates
      the centre to `c`. */
  lemma CalibrationOfSteadyStick(readings: seq<seq<Conversion>>, c: Sample)
    requires |readings| == CalibrationReads
    requires forall i :: 0 <= i < |readings| ==> |readings[i]| == AdcSamples
    requires forall i, j :: 0 <= i < |readings| && 0 <= j < |readings[i]| ==> readings[i][j] == Conversion(true, c)
    ensures SumOfAverages(readings) / CalibrationReads == c
  {
    forall i | 0 <= i < |readings|
      ensures Average(readings[i]) == c
    {
      AverageOfConstant(readings[i], c);
    }
    CalibrationOfConstant(readings, c);
  }

  /** Moving the stick further from the centre never reverses the reading:
      a reading classified UP stays UP for every larger X, DOWN for every smaller. */
  lemma ClassifyMonotone(x1: int, x2: int, centerX: int)
    requires x1 <= x2
    ensures Classify(x1, centerX) == Up ==> Classify(x2, centerX) == Up
    ensures Classify(x2, centerX) == Down ==> Classify(x1, centerX) == Down
  {
  }

  /** The joystick handle. The driver's file-static calibrated centre is kept
      here as the field `centerX`; the ADC handle, channels and button line are
      opaque identifiers. */
  class Handle {
    var adc: int
    var xChannel: int
    var yChannel: int
    var buttonPort: int
    var buttonPin: int
    var centerX: int

    /** A handle at program start: fields zero, centre zero. */
    constructor ()
      ensures adc == 0 && xChannel == 0 && yChannel == 0 && buttonPort == 0 && buttonPin == 0
      ensures centerX == 0
    {
      adc, xChannel, yChannel, buttonPort, buttonPin := 0, 0, 0, 0, 0;
      centerX := 0;
    }

    /** Stores the five given parameters into the handle unchanged. */
    method Init(hadc: int, xCh: int, yCh: int, port: int, pin: int)
      modifies this
      ensures adc == hadc && xChannel == xCh && yChannel == yCh
      ensures buttonPort == port && buttonPin == pin
      ensures centerX == old(centerX)
    {
      adc := hadc;
      xChannel := xCh;
      yChannel := yCh;
      buttonPort := port;
      buttonPin := pin;
    }

    /** Sets the centre to the integer mean of 32 averaged X-channel readings. */
    method Calibrate(readings: seq<seq<Conversion>>)
      requires |readings| == CalibrationReads
      requires forall i :: 0 <= i < |readings| ==> |readings[i]| == AdcSamples
      modifies this`centerX
      ensures 0 <= centerX <= AdcMax
      ensures centerX == SumOfAverages(readings) / CalibrationReads
    {
      var sum := 0;
      var i := 0;
      while i < CalibrationReads
        invariant 0 <= i <= CalibrationReads
        invariant sum == SumOfAverages(readings[..i])
      {
        assert readings[..i + 1][..i] == readings[..i];
        var v := ReadChannel(readings[i]);
        sum := sum + v;
        i := i + 1;
      }
      assert readings[..CalibrationReads] == readings;
      centerX := sum / CalibrationReads;
    }

    /** Reads the X channel and classifies it against the centre. */
    method GetDirection(xs: seq<Conversion>) returns (d: Direction)
      requires |xs| == AdcSamples
      ensures d == Classify(Average(xs), centerX)
    {
      var x := ReadChannel(xs);
      var diff := x - centerX;
      if diff > Deadzone {
        return Up;
      }
      if diff < -Deadzone {
        return Down;
      }
      return Idle;
    }

    /** Writes the X average to `xy[0]` and the Y average to `xy[1]`. */
    method ReadXY(xy: array<int>, xs: seq<Conversion>, ys: seq<Conversion>)
      requires xy.Length >= 2
      requires |xs| == AdcSamples && |ys| == AdcSamples
      modifies xy
      ensures xy[0] == Average(xs) && xy[1] == Average(ys)
      ensures forall k :: 2 <= k < xy.Length ==> xy[k] == old(xy[k])
    {
      xy[0] := ReadChannel(xs);
      xy[1] := ReadChannel(ys);
    }

    /** The push button, active low: pressed iff both debounce reads are low. */
    method Pressed(readings: PinPair) returns (pressed: bool)
      ensures pressed <==> readings.first == Reset && readings.second == Reset
      ensures pressed == Debounce(readings)
    {
      pressed := false;
      if readings.first == Reset {
        if readings.second == Reset {
          pressed := true;
        }
      }
    }
  }
}

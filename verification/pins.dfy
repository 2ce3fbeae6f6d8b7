/** Digital input lines and the two-read, active-low debounce shared by the
    game's colour buttons and the joystick's push button. */
module Pins {

  /** The level a GPIO read returns; `Reset` is low, which is "pressed" for
      the active-low switches of this board. */
  datatype PinState = Reset | Set

  /** The two reads a debounce makes of one line: the first read, and the
      read taken after the 20 ms settle delay. When `first` is `Set` the
      second read is never taken, so its value must not matter. */
  datatype PinPair = PinPair(first: PinState, second: PinState)

  /** A press is accepted only when the line reads low on both reads. */
  function Debounce(p: PinPair): (pressed: bool)
    ensures pressed <==> p.first == Reset && p.second == Reset
    ensures p.first == Set ==> !pressed
  {
    p.first == Reset && p.second == Reset
  }

  /** A bounce (low, then released before the settle delay ends) is rejected;
      a line that stays low is accepted; the second read is irrelevant when the
      first read is high. */
  lemma DebounceBounce(second: PinState)
    ensures !Debounce(PinPair(Reset, Set))
    ensures Debounce(PinPair(Reset, Reset))
    ensures Debounce(PinPair(Set, second)) == Debounce(PinPair(Set, Reset))
  {
  }
}

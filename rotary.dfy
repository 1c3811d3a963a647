/** Ben Buxton's rotary-encoder state machine in its full-step form, as used by the B1
    controller: the state lives in the low nibble of `encoderState`, a completed detent is
    reported in bits 0x30. */
module Rotary {
  import opened Common

  const DirCcw := 0x10
  const DirCw := 0x20

  /** `ttable[7][4]`, indexed by the state nibble and the pin reading. */
  const TransitionTable: seq<seq<byte>> := [
    [0x0, 0x2, 0x4, 0x0], [0x3, 0x0, 0x1, 0x10],
    [0x3, 0x2, 0x0, 0x0], [0x3, 0x2, 0x1, 0x0],
    [0x6, 0x0, 0x4, 0x0], [0x6, 0x5, 0x0, 0x20],
    [0x6, 0x5, 0x4, 0x0]
  ]

  /** `(digitalRead(PIN_ENC2) << 1) | digitalRead(PIN_ENC1)` */
  function PinState(enc1: bool, enc2: bool): (p: nat)
    ensures p < 4
    ensures (p % 2 == 1) == enc1 && (p / 2 == 1) == enc2
  {
    (if enc2 then 2 else 0) + (if enc1 then 1 else 0)
  }

  /** `encoderState & 0xf` */
  function Nibble(state: byte): nat {
    state % 16
  }

  /** `encoderState & 0x30` */
  function Direction(state: byte): nat {
    (state / 16) % 4 * 16
  }

  /** The values `encoderState` can hold: every entry of the table has a state nibble below 7
      (a row of the table) and nothing above bit 5. */
  predicate ValidState(state: byte) {
    Nibble(state) < 7 && state < 0x30
  }

  /** `encoderState = ttable[encoderState & 0xf][pinstate]` */
  function Next(state: byte, pins: nat): (s: byte)
    requires ValidState(state) && pins < 4
    ensures ValidState(s)
    ensures Direction(s) == 0 || Direction(s) == DirCcw || Direction(s) == DirCw
    ensures Direction(s) != 0 ==> pins == 3 && Nibble(s) == 0
  {
    TransitionTable[Nibble(state)][pins]
  }

  /** The result of `rotary_process()`: the new state and the direction it reports. */
  function Process(state: byte, pins: nat): (r: (byte, nat))
    requires ValidState(state) && pins < 4
    ensures ValidState(r.0) && r.1 in {0, DirCcw, DirCw}
  {
    var s := Next(state, pins);
    (s, Direction(s))
  }

  /** The directions reported while the pins go through `readings`, starting in `state`. */
  function Trace(state: byte, readings: seq<nat>): (ds: seq<nat>)
    requires ValidState(state)
    requires forall k :: 0 <= k < |readings| ==> readings[k] < 4
    ensures |ds| == |readings|
    decreases |readings|
  {
    if readings == [] then []
    else
      var (s, d) := Process(state, readings[0]);
      [d] + Trace(s, readings[1..])
  }

  /** The state nibble after the pins go through `readings`, starting in `state`. */
  function FinalNibble(state: byte, readings: seq<nat>): (n: nat)
    requires ValidState(state)
    requires forall k :: 0 <= k < |readings| ==> readings[k] < 4
    ensures n < 7
    decreases |readings|
  {
    if readings == [] then Nibble(state)
    else FinalNibble(Next(state, readings[0]), readings[1..])
  }

  /** One counter-clockwise detent (pins 01, 00, 10, 11 from rest) reports DIR_CCW on the last
      reading only, and a clockwise one (10, 00, 01, 11) reports DIR_CW; both end at rest. */
  lemma FullDetents()
    ensures Trace(0, [1, 0, 2, 3]) == [0, 0, 0, DirCcw] && FinalNibble(0, [1, 0, 2, 3]) == 0
    ensures Trace(0, [2, 0, 1, 3]) == [0, 0, 0, DirCw] && FinalNibble(0, [2, 0, 1, 3]) == 0
  {
    CounterClockwiseDetent();
    ClockwiseDetent();
  }

  /** The counter-clockwise half of `FullDetents`. */
  lemma CounterClockwiseDetent()
    ensures Trace(0, [1, 0, 2, 3]) == [0, 0, 0, DirCcw] && FinalNibble(0, [1, 0, 2, 3]) == 0
  {
  }

  /** The clockwise half of `FullDetents`. */
  lemma ClockwiseDetent()
    ensures Trace(0, [2, 0, 1, 3]) == [0, 0, 0, DirCw] && FinalNibble(0, [2, 0, 1, 3]) == 0
  {
  }

  /** Turning back before the middle position: from rest, or from the first position in
      either direction, pin readings that never reach 00 (contact bounce, half a detent and
      back) report nothing, and the machine stays at rest or at a first position. */
  lemma {:induction false} HalfTurnIsSilent(state: byte, readings: seq<nat>)
    requires ValidState(state) && Nibble(state) in {0, 2, 4}
    requires forall k :: 0 <= k < |readings| ==> 0 < readings[k] < 4
    ensures forall k :: 0 <= k < |readings| ==> Trace(state, readings)[k] == 0
    ensures FinalNibble(state, readings) in {0, 2, 4}
    decreases |readings|
  {
    if readings != [] {
      HalfTurnIsSilent(Next(state, readings[0]), readings[1..]);
    }
  }
}

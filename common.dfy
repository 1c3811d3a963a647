/** Types and hardware abstractions shared by both controller firmwares and the drivers. */
module Common {

  /** An Arduino `byte` / `uint8_t` used as a number. */
  type byte = x: int | 0 <= x < 256

  /** An Arduino `word` / `uint16_t`. */
  type word = x: int | 0 <= x < 0x1_0000

  /** An Arduino `unsigned long`, the type of `millis()` time stamps. */
  type u32 = x: int | 0 <= x < 0x1_0000_0000

  datatype Option<T> = None | Some(value: T)

  /** `millis() - since` evaluated in `unsigned long` arithmetic: it wraps modulo 2^32. */
  function Elapsed(now: u32, since: u32): (d: u32)
    ensures since <= now ==> d == now - since
    ensures now < since ==> d == now + 0x1_0000_0000 - since
  {
    (now - since) % 0x1_0000_0000
  }

  /** One call on an MCP23008 port expander. */
  datatype ExpanderOp = PinMode(pin: int) | DigitalWrite(pin: int, high: bool)

  /** The level a log of expander calls leaves on `pin`: the value of its last write, if any. */
  function LastWrite(ops: seq<ExpanderOp>, pin: int): Option<bool>
    decreases |ops|
  {
    if ops == [] then None
    else if ops[|ops| - 1].DigitalWrite? && ops[|ops| - 1].pin == pin then Some(ops[|ops| - 1].high)
    else LastWrite(ops[..|ops| - 1], pin)
  }

  /** Later calls decide a pin's level; earlier ones matter only for pins the later ones leave
      alone. */
  lemma {:induction false} LastWriteConcat(a: seq<ExpanderOp>, b: seq<ExpanderOp>, pin: int)
    ensures LastWrite(a + b, pin) == if LastWrite(b, pin).Some? then LastWrite(b, pin) else LastWrite(a, pin)
    decreases |b|
  {
    if b == [] {
      assert a + b == a;
    } else {
      assert (a + b)[..|a + b| - 1] == a + b[..|b| - 1];
      LastWriteConcat(a, b[..|b| - 1], pin);
    }
  }

  /** In a log of writes to pairwise distinct pins, each pin ends at the level written to it. */
  lemma {:induction false} LastWriteOfDistinct(ops: seq<ExpanderOp>, k: nat)
    requires k < |ops|
    requires forall i :: 0 <= i < |ops| ==> ops[i].DigitalWrite?
    requires forall i, j :: 0 <= i < j < |ops| ==> ops[i].pin != ops[j].pin
    ensures LastWrite(ops, ops[k].pin) == Some(ops[k].high)
    decreases |ops|
  {
    if k < |ops| - 1 {
      LastWriteOfDistinct(ops[..|ops| - 1], k);
    }
  }

  /** A pin no call writes has no level in the log. */
  lemma {:induction false} LastWriteUntouched(ops: seq<ExpanderOp>, pin: int)
    requires forall i :: 0 <= i < |ops| ==> !(ops[i].DigitalWrite? && ops[i].pin == pin)
    ensures LastWrite(ops, pin) == None
    decreases |ops|
  {
    if ops != [] {
      LastWriteUntouched(ops[..|ops| - 1], pin);
    }
  }

  /** Size of the ATmega328 EEPROM, in bytes. */
  const EepromSize := 1024

  /** The on-chip EEPROM: its cells, and the addresses passed to `EEPROM.write`, in order. */
  class Eeprom {
    const cells: array<byte>
    var writes: seq<nat>

    constructor (init: seq<byte>)
      requires |init| == EepromSize
      ensures fresh(cells) && cells[..] == init && writes == []
    {
      cells := new byte[EepromSize](i requires 0 <= i < EepromSize => init[i]);
      writes := [];
    }

    /** `EEPROM.read(a)` */
    function Read(a: nat): byte
      requires a < cells.Length
      reads cells
    {
      cells[a]
    }

    /** `EEPROM.write(a, v)`: the cell takes the value and the write is logged. */
    method Write(a: nat, v: byte)
      requires a < cells.Length
      modifies this, cells
      ensures cells[..] == old(cells[..])[a := v]
      ensures writes == old(writes) + [a]
    {
      cells[a] := v;
      writes := writes + [a];
    }
  }
}

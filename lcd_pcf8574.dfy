/** The HD44780 character LCD behind a PCF8574 I2C port expander, driven in 4-bit mode.
    Each I2C byte carries a half byte in its upper four bits and the RS, RW, EN and backlight
    signals in its lower four. The bus is the log of bytes sent to the display's address. */
module LcdPcf8574 {

  /** The signal bits of a PCF8574 byte. */
  const PcfRs: bv8 := 0x01
  const PcfRw: bv8 := 0x02
  const PcfEn: bv8 := 0x04
  const PcfBacklight: bv8 := 0x08

  /** The bits of the display control register. */
  const DisplayOnBit: bv8 := 0x04
  const CursorBit: bv8 := 0x02
  const BlinkBit: bv8 := 0x01

  /** The bits of the entry mode register. */
  const IncrementBit: bv8 := 0x02
  const ShiftBit: bv8 := 0x01

  /** DDRAM addresses of the first column of each row of a 20x4 module. */
  function RowOffset(row: nat): (off: bv8)
    requires row < 4
    ensures off == 0x00 || off == 0x40 || off == 0x14 || off == 0x54
  {
    [0x00, 0x40, 0x14, 0x54][row]
  }

  /** `_write2Wire(halfByte, isData, enable)`: the I2C byte for one half byte and the signals. */
  function Frame(half: bv8, isData: bool, enable: bool, light: bool): (b: bv8)
    requires half < 16
    ensures b >> 4 == half
    ensures (b & PcfRs != 0) == isData
    ensures b & PcfRw == 0
    ensures (b & PcfEn != 0) == enable
    ensures (b & PcfBacklight != 0) == light
  {
    (half << 4) | (if isData then PcfRs else 0) | (if enable then PcfEn else 0)
      | (if light then PcfBacklight else 0)
  }

  /** `_sendNibble`: the half byte with EN raised, then with EN lowered. */
  function Nibble(half: bv8, isData: bool, light: bool): (s: seq<bv8>)
    requires half < 16
    ensures |s| == 2
  {
    [Frame(half, isData, true, light), Frame(half, isData, false, light)]
  }

  /** `_send(value, isData)`: the high half byte, then the low one. */
  function SendBytes(v: bv8, isData: bool, light: bool): (s: seq<bv8>)
    ensures |s| == 4
  {
    Nibble(v >> 4, isData, light) + Nibble(v & 0x0F, isData, light)
  }

  /** What the display latches from the four bytes of `_send`: EN falls after bytes 0 and 2,
      and the upper half bytes of the two latched bytes make up the value again. RW is never
      set, RS marks data, and every byte carries the backlight bit iff the light is on. */
  lemma SendReassembles(v: bv8, isData: bool, light: bool)
    ensures var s := SendBytes(v, isData, light);
            && (s[1] & 0xF0) | (s[3] >> 4) == v
            && s[0] & PcfEn != 0 && s[1] & PcfEn == 0 && s[2] & PcfEn != 0 && s[3] & PcfEn == 0
    ensures forall k :: 0 <= k < 4 ==>
              var b := SendBytes(v, isData, light)[k];
              && b & PcfRw == 0
              && (b & PcfRs != 0) == isData
              && (b & PcfBacklight != 0) == light
  {
    var s := SendBytes(v, isData, light);
    assert s[1] >> 4 == v >> 4 && s[3] >> 4 == v & 0x0F;
    assert s[1] & 0xF0 == (s[1] >> 4) << 4;
  }

  /** `location &= 0x7` then `0x40 | (location << 3)`: the CGRAM address of a custom glyph. */
  function CgramCommand(location: bv8): (c: bv8)
    ensures c & 0xC0 == 0x40
    ensures (c >> 3) & 0x07 == location & 0x07
    ensures c & 0x07 == 0
  {
    0x40 | ((location & 0x07) << 3)
  }

  /** The bytes of the eight data writes of `createChar`, in order. */
  function DataBytes(rows: seq<bv8>, light: bool): (s: seq<bv8>)
    ensures |s| == 4 * |rows|
    decreases |rows|
  {
    if rows == [] then [] else DataBytes(rows[..|rows| - 1], light) + SendBytes(rows[|rows| - 1], true, light)
  }

  /** One more row of a glyph adds its four bytes at the end. */
  lemma DataBytesSnoc(rows: seq<bv8>, i: nat, light: bool)
    requires i < |rows|
    ensures DataBytes(rows[..i + 1], light) == DataBytes(rows[..i], light) + SendBytes(rows[i], true, light)
  {
    assert rows[..i + 1][..i] == rows[..i];
  }

  /** A wire holding the first `i` rows of a glyph, followed by the bytes of row `i`, holds
      the first `i + 1` rows. */
  lemma DataBytesStep(w0: seq<bv8>, before: seq<bv8>, after: seq<bv8>, rows: seq<bv8>, i: nat, light: bool)
    requires i < |rows|
    requires before == w0 + DataBytes(rows[..i], light)
    requires after == before + SendBytes(rows[i], true, light)
    ensures after == w0 + DataBytes(rows[..i + 1], light)
  {
    DataBytesSnoc(rows, i, light);
  }

  /** Row `i` of a glyph sits in bytes 4i..4i+3 of its data writes. */
  lemma {:induction false} DataBytesAt(rows: seq<bv8>, light: bool, i: nat)
    requires i < |rows|
    ensures DataBytes(rows, light)[4 * i..4 * i + 4] == SendBytes(rows[i], true, light)
    decreases |rows|
  {
    var init := rows[..|rows| - 1];
    if i < |rows| - 1 {
      DataBytesAt(init, light, i);
      assert init[i] == rows[i];
      assert DataBytes(rows, light)[4 * i..4 * i + 4] == DataBytes(init, light)[4 * i..4 * i + 4];
    } else {
      assert DataBytes(rows, light)[4 * i..4 * i + 4] == SendBytes(rows[i], true, light);
    }
  }

  /** `0x80 | (offset[row] + col)` on the eight bits the display sees: the set-DDRAM bit over
      the address, which lands in the low seven bits whenever it is below 0x80. */
  function CursorCommand(col: bv8, row: nat): (c: bv8)
    requires row < 4
    ensures c & 0x80 == 0x80
    ensures col <= 0x7F && RowOffset(row) <= 0x7F - col ==> c & 0x7F == RowOffset(row) + col
  {
    0x80 | (RowOffset(row) + col)
  }

  /** The bytes of the reset part of `begin`: one byte with everything low, then the half
      bytes 3, 3, 3 and 2 with their enable pulses. */
  function ResetBytes(light: bool): (s: seq<bv8>)
    ensures |s| == 9 && s[0] == Frame(0, false, false, light)
    ensures s[1..] == Nibble(3, false, light) + Nibble(3, false, light) + Nibble(3, false, light)
                      + Nibble(2, false, light)
  {
    [Frame(0, false, false, light)] + Nibble(3, false, light) + Nibble(3, false, light)
    + Nibble(3, false, light) + Nibble(2, false, light)
  }

  /** A register with one flag set or cleared: the flag's bit takes the new value, and every
      other bit keeps the old one. */
  function WithFlag(reg: bv8, flag: bv8, on: bool): (r: bv8)
    ensures r & flag == (if on then flag else 0)
    ensures r & !flag == reg & !flag
  {
    if on then reg | flag else reg & !flag
  }

  /** Setting or clearing a flag twice is the same as doing it once; and doing it on a register
      that already has that value of the flag leaves the register as it is. */
  lemma WithFlagIdempotent(reg: bv8, flag: bv8, on: bool)
    ensures WithFlag(WithFlag(reg, flag, on), flag, on) == WithFlag(reg, flag, on)
    ensures reg & flag == (if on then flag else 0) ==> WithFlag(reg, flag, on) == reg
  {
  }

  /** A 20x4 module: distinct positions get distinct `setCursor` commands. */
  lemma CursorPositionsDistinct(col1: bv8, row1: nat, col2: bv8, row2: nat)
    requires col1 < 20 && row1 < 4 && col2 < 20 && row2 < 4
    requires (col1, row1) != (col2, row2)
    ensures CursorCommand(col1, row1) != CursorCommand(col2, row2)
  {
    assert RowOffset(row1) + col1 != RowOffset(row2) + col2;
  }

  /** `LiquidCrystal_PCF8574`: the flag registers and the backlight it keeps, and the bytes it
      has sent. */
  class Pcf8574Lcd {
    var backlight: int
    var displayControl: bv8
    var entryMode: bv8
    var lines: int
    var wire: seq<bv8>

    /** The register values of an HD44780 after its internal reset, backlight off. */
    constructor()
      ensures backlight == 0 && displayControl == 0x04 && entryMode == 0x02 && wire == []
    {
      backlight := 0;
      entryMode := 0x02;
      displayControl := 0x04;
      lines := 0;
      wire := [];
    }

    /** Whether the bytes sent now carry the backlight bit. */
    predicate Lit()
      reads this
    {
      backlight > 0
    }

    /** `_write2Wire`: one byte on the bus. */
    method Write2Wire(half: bv8, isData: bool, enable: bool)
      requires half < 16
      modifies this`wire
      ensures wire == old(wire) + [Frame(half, isData, enable, Lit())]
    {
      wire := wire + [Frame(half, isData, enable, Lit())];
    }

    /** `_sendNibble`: the EN pulse for one half byte. */
    method SendNibble(half: bv8, isData: bool)
      requires half < 16
      modifies this`wire
      ensures wire == old(wire) + Nibble(half, isData, Lit())
    {
      Write2Wire(half, isData, true);
      Write2Wire(half, isData, false);
    }

    /** `_send`: a command or data byte as two half bytes. */
    method Send(v: bv8, isData: bool)
      modifies this`wire
      ensures wire == old(wire) + SendBytes(v, isData, Lit())
    {
      SendNibble(v >> 4, isData);
      SendNibble(v & 0x0F, isData);
    }

    /** `clear`: instruction 0x01. */
    method Clear()
      modifies this`wire
      ensures wire == old(wire) + SendBytes(0x01, false, Lit())
    {
      Send(0x01, false);
    }

    /** `home`: instruction 0x02. */
    method Home()
      modifies this`wire
      ensures wire == old(wire) + SendBytes(0x02, false, Lit())
    {
      Send(0x02, false);
    }

    /** `setCursor(col, row)`: set DDRAM address, 0x80 | (row offset + col). */
    method SetCursor(col: bv8, row: nat)
      requires row < 4
      modifies this`wire
      ensures wire == old(wire) + SendBytes(CursorCommand(col, row), false, Lit())
    {
      Send(CursorCommand(col, row), false);
    }

    /** The display control register after one of the toggles, and its instruction. */
    method SetDisplayFlag(flag: bv8, on: bool)
      modifies this`displayControl, this`wire
      ensures displayControl == WithFlag(old(displayControl), flag, on)
      ensures wire == old(wire) + SendBytes(0x08 | displayControl, false, Lit())
    {
      displayControl := WithFlag(displayControl, flag, on);
      Send(0x08 | displayControl, false);
    }

    /** `display()`: set bit 0x04; already set, it changes nothing but the bytes it resends. */
    method Display()
      modifies this`displayControl, this`wire
      ensures displayControl & DisplayOnBit == DisplayOnBit
      ensures displayControl & !DisplayOnBit == old(displayControl) & !DisplayOnBit
      ensures old(displayControl) & DisplayOnBit == DisplayOnBit ==> displayControl == old(displayControl)
      ensures wire == old(wire) + SendBytes(0x08 | displayControl, false, Lit())
    {
      SetDisplayFlag(DisplayOnBit, true);
    }

    /** `noDisplay()`: clear bit 0x04. */
    method NoDisplay()
      modifies this`displayControl, this`wire
      ensures displayControl & DisplayOnBit == 0
      ensures displayControl & !DisplayOnBit == old(displayControl) & !DisplayOnBit
      ensures old(displayControl) & DisplayOnBit == 0 ==> displayControl == old(displayControl)
      ensures wire == old(wire) + SendBytes(0x08 | displayControl, false, Lit())
    {
      SetDisplayFlag(DisplayOnBit, false);
    }

    /** `cursor()`: set bit 0x02. */
    method Cursor()
      modifies this`displayControl, this`wire
      ensures displayControl & CursorBit == CursorBit
      ensures displayControl & !CursorBit == old(displayControl) & !CursorBit
      ensures old(displayControl) & CursorBit == CursorBit ==> displayControl == old(displayControl)
      ensures wire == old(wire) + SendBytes(0x08 | displayControl, false, Lit())
    {
      SetDisplayFlag(CursorBit, true);
    }

    /** `noCursor()`: clear bit 0x02. */
    method NoCursor()
      modifies this`displayControl, this`wire
      ensures displayControl & CursorBit == 0
      ensures displayControl & !CursorBit == old(displayControl) & !CursorBit
      ensures old(displayControl) & CursorBit == 0 ==> displayControl == old(displayControl)
      ensures wire == old(wire) + SendBytes(0x08 | displayControl, false, Lit())
    {
      SetDisplayFlag(CursorBit, false);
    }

    /** `blink()`: set bit 0x01. */
    method Blink()
      modifies this`displayControl, this`wire
      ensures displayControl & BlinkBit == BlinkBit
      ensures displayControl & !BlinkBit == old(displayControl) & !BlinkBit
      ensures old(displayControl) & BlinkBit == BlinkBit ==> displayControl == old(displayControl)
      ensures wire == old(wire) + SendBytes(0x08 | displayControl, false, Lit())
    {
      SetDisplayFlag(BlinkBit, true);
    }

    /** `noBlink()`: clear bit 0x01. */
    method NoBlink()
      modifies this`displayControl, this`wire
      ensures displayControl & BlinkBit == 0
      ensures displayControl & !BlinkBit == old(displayControl) & !BlinkBit
      ensures old(displayControl) & BlinkBit == 0 ==> displayControl == old(displayControl)
      ensures wire == old(wire) + SendBytes(0x08 | displayControl, false, Lit())
    {
      SetDisplayFlag(BlinkBit, false);
    }

    /** `scrollDisplayLeft`: cursor or display shift, shift left, 0x18. */
    method ScrollDisplayLeft()
      modifies this`wire
      ensures wire == old(wire) + SendBytes(0x18, false, Lit())
    {
      Send(0x10 | 0x08 | 0x00, false);
    }

    /** `scrollDisplayRight`: shift right, 0x1C. */
    method ScrollDisplayRight()
      modifies this`wire
      ensures wire == old(wire) + SendBytes(0x1C, false, Lit())
    {
      Send(0x10 | 0x08 | 0x04, false);
    }

    /** The entry mode register after one of its setters, and its instruction. */
    method SetEntryFlag(flag: bv8, on: bool)
      modifies this`entryMode, this`wire
      ensures entryMode == WithFlag(old(entryMode), flag, on)
      ensures wire == old(wire) + SendBytes(0x04 | entryMode, false, Lit())
    {
      entryMode := WithFlag(entryMode, flag, on);
      Send(0x04 | entryMode, false);
    }

    /** `leftToRight()`: set the increment bit 0x02. */
    method LeftToRight()
      modifies this`entryMode, this`wire
      ensures entryMode & IncrementBit == IncrementBit
      ensures entryMode & !IncrementBit == old(entryMode) & !IncrementBit
      ensures wire == old(wire) + SendBytes(0x04 | entryMode, false, Lit())
    {
      SetEntryFlag(IncrementBit, true);
    }

    /** `rightToLeft()`: clear the increment bit 0x02. */
    method RightToLeft()
      modifies this`entryMode, this`wire
      ensures entryMode & IncrementBit == 0
      ensures entryMode & !IncrementBit == old(entryMode) & !IncrementBit
      ensures wire == old(wire) + SendBytes(0x04 | entryMode, false, Lit())
    {
      SetEntryFlag(IncrementBit, false);
    }

    /** `autoscroll()`: set the shift bit 0x01. */
    method Autoscroll()
      modifies this`entryMode, this`wire
      ensures entryMode & ShiftBit == ShiftBit
      ensures entryMode & !ShiftBit == old(entryMode) & !ShiftBit
      ensures wire == old(wire) + SendBytes(0x04 | entryMode, false, Lit())
    {
      SetEntryFlag(ShiftBit, true);
    }

    /** `noAutoscroll()`: clear the shift bit 0x01. */
    method NoAutoscroll()
      modifies this`entryMode, this`wire
      ensures entryMode & ShiftBit == 0
      ensures entryMode & !ShiftBit == old(entryMode) & !ShiftBit
      ensures wire == old(wire) + SendBytes(0x04 | entryMode, false, Lit())
    {
      SetEntryFlag(ShiftBit, false);
    }

    /** `setBacklight(brightness)`: store it and send one byte with RS set and no half byte,
        so that the backlight pin takes the new level at once. */
    method SetBacklight(brightness: int)
      modifies this`backlight, this`wire
      ensures backlight == brightness
      ensures wire == old(wire) + [Frame(0, true, false, brightness > 0)]
    {
      backlight := brightness;
      Write2Wire(0x00, true, false);
    }

    /** `write(ch)`: one data byte. */
    method Write(ch: bv8)
      modifies this`wire
      ensures wire == old(wire) + SendBytes(ch, true, Lit())
    {
      Send(ch, true);
    }

    /** `createChar(location, charmap)`: the CGRAM address of glyph `location & 7`, then its
        first eight rows as data. */
    method CreateChar(location: bv8, charmap: seq<bv8>)
      requires 8 <= |charmap|
      modifies this`wire
      ensures wire == old(wire) + SendBytes(CgramCommand(location), false, Lit())
                                + DataBytes(charmap[..8], Lit())
    {
      Send(CgramCommand(location), false);
      WriteRows(charmap);
    }

    /** The loop of `createChar`: the first eight rows of the glyph, one data byte each. */
    method WriteRows(charmap: seq<bv8>)
      requires 8 <= |charmap|
      modifies this`wire
      ensures wire == old(wire) + DataBytes(charmap[..8], Lit())
    {
      ghost var light := Lit();
      var i := 0;
      while i < 8
        invariant 0 <= i <= 8
        invariant wire == old(wire) + DataBytes(charmap[..i], light)
      {
        ghost var before := wire;
        Write(charmap[i]);
        DataBytesStep(old(wire), before, wire, charmap, i, light);
        i := i + 1;
      }
    }

    /** The first part of `begin`: one byte with everything low, the registers as after the
        internal reset, and the "Initializing by Instruction" half bytes 3, 3, 3, 2. */
    method Reset()
      modifies this`displayControl, this`entryMode, this`wire
      ensures displayControl == 0x04 && entryMode == 0x02
      ensures wire == old(wire) + ResetBytes(Lit())
    {
      Write2Wire(0x00, false, false);
      displayControl := 0x04;
      entryMode := 0x02;
      SendNibble(0x03, false);
      SendNibble(0x03, false);
      SendNibble(0x03, false);
      SendNibble(0x02, false);
    }

    /** `begin(cols, lines)`: the reset, function set (0x28 for more than one line, 0x20
        otherwise), then `display()`, `clear()` and `leftToRight()`, which leave the registers
        at display on, cursor and blink off, increment without shift. */
    method Begin(cols: int, numLines: int)
      modifies this`lines, this`displayControl, this`entryMode, this`wire
      ensures lines == numLines
      ensures displayControl == 0x04 && entryMode == 0x02
      ensures wire == old(wire) + ResetBytes(Lit())
                     + SendBytes(if numLines > 1 then 0x28 else 0x20, false, Lit())
                     + SendBytes(0x0C, false, Lit()) + SendBytes(0x01, false, Lit())
                     + SendBytes(0x06, false, Lit())
    {
      lines := numLines;
      var functionFlags: bv8 := 0;
      if numLines > 1 {
        functionFlags := functionFlags | 0x08;
      }
      ghost var light := Lit();
      Reset();
      ghost var w1 := wire;
      Send(0x20 | functionFlags, false);
      assert 0x20 | functionFlags == if numLines > 1 then 0x28 else 0x20;
      ghost var w2 := wire;
      Display();
      assert displayControl == 0x04;
      assert wire == w2 + SendBytes(0x0C, false, light);
      ghost var w3 := wire;
      Clear();
      ghost var w4 := wire;
      LeftToRight();
      assert entryMode == 0x02;
      assert wire == w4 + SendBytes(0x06, false, light);
    }
  }
}

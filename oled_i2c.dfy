/** The SSD1311 20x4 OLED character display on I2C. Every command and every data byte is one
    transmission to address 0x3C: a control byte (0x80 for a command, 0x40 for data) and the
    byte itself. The bus is the log of those transmissions. */
module OledI2c {
  import opened Common
  import opened BigDigits

  const OledAddress: byte := 0x3C
  const CommandMode: byte := 0x80
  const DataMode: byte := 0x40

  /** One `beginTransmission(address)`, two `write`s, `endTransmission()`. */
  datatype Transmission = Transmission(address: byte, control: byte, payload: byte)

  /** The transmission `sendCommand(c)` makes. */
  function Command(c: byte): Transmission {
    Transmission(OledAddress, CommandMode, c)
  }

  /** The transmission `sendData(d)` makes. */
  function Data(d: byte): Transmission {
    Transmission(OledAddress, DataMode, d)
  }

  /** What the display makes of a transmission: a command (true) or a data byte (false), or
      nothing when it is not addressed to it or has another control byte. */
  function Received(t: Transmission): (r: Option<(bool, byte)>)
    ensures r.Some? ==> r.value.1 == t.payload
  {
    if t.address != OledAddress then None
    else if t.control == CommandMode then Some((true, t.payload))
    else if t.control == DataMode then Some((false, t.payload))
    else None
  }

  /** The display receives exactly the command or data byte that was sent, and tells them
      apart. */
  lemma FramesReceived(c: byte, d: byte)
    ensures Received(Command(c)) == Some((true, c))
    ensures Received(Data(d)) == Some((false, d))
    ensures Command(c) != Data(d)
  {
  }

  /** The transmissions of `sendData` for each byte, in order. */
  function DataFrames(b: seq<byte>): (f: seq<Transmission>)
    ensures |f| == |b|
    decreases |b|
  {
    if b == [] then [] else DataFrames(b[..|b| - 1]) + [Data(b[|b| - 1])]
  }

  /** Sending two byte strings one after the other sends their concatenation. */
  lemma {:induction false} DataFramesAppend(a: seq<byte>, b: seq<byte>)
    ensures DataFrames(a + b) == DataFrames(a) + DataFrames(b)
    decreases |b|
  {
    if b == [] {
      assert a + b == a;
    } else {
      assert (a + b)[..|a + b| - 1] == a + b[..|b| - 1];
      DataFramesAppend(a, b[..|b| - 1]);
    }
  }

  /** Sending `a` and then `b` after `start` sends `a + b` after it. */
  lemma FramesConcat(start: seq<Transmission>, mid: seq<Transmission>, after: seq<Transmission>,
                     a: seq<byte>, b: seq<byte>)
    requires mid == start + DataFrames(a) && after == mid + DataFrames(b)
    ensures after == start + DataFrames(a + b)
  {
    DataFramesAppend(a, b);
  }

  /** Sending `a` and then the byte `x` after `start` sends `a + [x]` after it. */
  lemma FramesSnoc(start: seq<Transmission>, mid: seq<Transmission>, after: seq<Transmission>,
                   a: seq<byte>, x: byte)
    requires mid == start + DataFrames(a) && after == mid + [Data(x)]
    ensures after == start + DataFrames(a + [x])
  {
    assert (a + [x])[..|a|] == a;
  }

  /** Each byte of a string becomes the data transmission at its own position. */
  lemma {:induction false} DataFramesAt(b: seq<byte>, i: nat)
    requires i < |b|
    ensures DataFrames(b)[i] == Data(b[i])
    decreases |b|
  {
    if i < |b| - 1 {
      DataFramesAt(b[..|b| - 1], i);
    }
  }

  /** The low eight bits of `0x80 | (col + row_offsets[row])`, offsets 0x00, 0x20, 0x40, 0x60:
      bit 7 set, and below it the address modulo 128. */
  function CursorCommand(col: byte, row: nat): (c: byte)
    requires row < 4
    ensures 0x80 <= c
    ensures col < 0x20 ==> c - 0x80 == col + 0x20 * row
  {
    0x80 + (col + 0x20 * row) % 0x80
  }

  /** Distinct positions within the first 32 columns get distinct `setCursor` commands. */
  lemma CursorPositionsDistinct(col1: byte, row1: nat, col2: byte, row2: nat)
    requires col1 < 0x20 && row1 < 4 && col2 < 0x20 && row2 < 4
    requires (col1, row1) != (col2, row2)
    ensures CursorCommand(col1, row1) != CursorCommand(col2, row2)
  {
  }

  /** `location &= 0x7` then `0x40 | (location << 3)`: set CGRAM address of glyph location. */
  function CgramCommand(location: byte): (c: byte)
    ensures 0x40 <= c < 0x80 && c % 8 == 0
    ensures (c - 0x40) / 8 == location % 8
  {
    0x40 + (location % 8) * 8
  }

  /** The six commands of `FadeOut` (on) and `FadeOutCancel` (off): enter the OLED command
      set, the fade command and its mode, leave the OLED command set. */
  function FadeCommands(on: bool): (cs: seq<byte>)
    ensures |cs| == 6
  {
    [0x2A, 0x79, 0x23, if on then 0x21 else 0x00, 0x78, 0x28]
  }

  /** `FadeOut` and `FadeOutCancel` differ in the fade mode byte alone. */
  lemma FadeOnlyModeDiffers()
    ensures forall i :: 0 <= i < 6 && i != 3 ==> FadeCommands(true)[i] == FadeCommands(false)[i]
    ensures FadeCommands(true)[3] == 0x21 && FadeCommands(false)[3] == 0x00
  {
  }

  /** The transmissions of a command sequence. */
  function CommandFrames(cs: seq<byte>): (f: seq<Transmission>)
    ensures |f| == |cs|
    ensures forall i :: 0 <= i < |cs| ==> f[i] == Command(cs[i])
  {
    seq(|cs|, i requires 0 <= i < |cs| => Command(cs[i]))
  }

  /** The transmissions of `createChar(location, charmap)`. */
  function CharFrames(location: byte, charmap: seq<byte>): (f: seq<Transmission>)
    requires 8 <= |charmap|
    ensures |f| == 9
  {
    [Command(CgramCommand(location))] + DataFrames(charmap[..8])
  }

  /** The transmissions of `createChar(0, cc[0])` ... `createChar(n - 1, cc[n - 1])`. */
  function CharSetFrames(cc: seq<seq<byte>>): (f: seq<Transmission>)
    requires |cc| <= 8 && forall i :: 0 <= i < |cc| ==> 8 <= |cc[i]|
    ensures |f| == 9 * |cc|
    decreases |cc|
  {
    if cc == [] then []
    else CharSetFrames(cc[..|cc| - 1]) + CharFrames(|cc| - 1, cc[|cc| - 1])
  }

  /** Glyph k is defined right after glyphs 0..k-1. */
  lemma CharSetFramesPrefix(cc: seq<seq<byte>>, k: nat)
    requires k < |cc| <= 8 && forall i :: 0 <= i < |cc| ==> 8 <= |cc[i]|
    ensures CharSetFrames(cc[..k + 1]) == CharSetFrames(cc[..k]) + CharFrames(k, cc[k])
  {
    assert cc[..k + 1][..k] == cc[..k];
  }

  /** Defining glyph k after glyphs 0..k-1 extends the transmissions by that glyph's. */
  lemma CharSetStep(start: seq<Transmission>, before: seq<Transmission>, after: seq<Transmission>,
                    cc: seq<seq<byte>>, k: nat)
    requires k < |cc| <= 8 && forall i :: 0 <= i < |cc| ==> 8 <= |cc[i]|
    requires before == start + CharSetFrames(cc[..k])
    requires after == before + CharFrames(k, cc[k])
    ensures after == start + CharSetFrames(cc[..k + 1])
  {
    CharSetFramesPrefix(cc, k);
  }

  /** Sending byte i after bytes 0..i-1 extends the transmissions by its frame. */
  lemma DataFramesStep(start: seq<Transmission>, before: seq<Transmission>, after: seq<Transmission>,
                       b: seq<byte>, i: nat)
    requires i < |b|
    requires before == start + DataFrames(b[..i])
    requires after == before + [Data(b[i])]
    ensures after == start + DataFrames(b[..i + 1])
  {
    assert b[..i + 1][..i] == b[..i];
  }

  /** `(x * 3)` stored in a `uint8_t`. */
  function Index3(x: nat): nat {
    (x * 3) % 256
  }

  /** A digit's index fits the byte unchanged. */
  lemma Index3Small(d: nat)
    requires d < 10
    ensures Index3(d) == 3 * d
  {
  }

  /** The index `print3x3Number` computes for its first position: the number itself with one
      digit, the tens with two, the hundreds otherwise. */
  function FirstIndex3(n: nat, digits: nat): nat {
    if digits == 1 then Index3(n) else if digits == 2 then Index3(n / 10) else Index3(n / 100)
  }

  /** The index of the second position: the units with two digits, the tens otherwise. */
  function SecondIndex3(n: nat, digits: nat): nat {
    if digits == 2 then Index3(n % 10) else Index3((n % 100) / 10)
  }

  /** The index of the third position: the units. */
  function ThirdIndex3(n: nat): (i: nat)
    ensures i + 3 <= 30
  {
    Index3((n % 100) % 10)
  }

  /** The first position is blanked. */
  predicate BlankFirst(n: nat) {
    n / 100 == 0
  }

  /** The second position is blanked. */
  predicate BlankSecond(n: nat, dp: bool) {
    n / 100 == 0 && n / 10 == 0 && !dp
  }

  /** Every table read of `print3x3Number` is within the 30-entry tables. */
  predicate InBounds3x3(n: nat, digits: nat, dp: bool) {
    && (!BlankFirst(n) ==> FirstIndex3(n, digits) + 3 <= 30)
    && (digits > 1 && !BlankSecond(n, dp) ==> SecondIndex3(n, digits) + 3 <= 30)
  }

  /** The character `print3x3Number` puts before the last digit in row `r` when the decimal
      point is on: blanks above, the point (46) in the bottom row. */
  function PointChar(r: nat): byte {
    if r == 2 then 46 else 32
  }

  /** The first position of row `r`: three blanks, or the glyph at the first index. */
  function Head3(r: nat, n: nat, digits: nat): (b: seq<byte>)
    requires r < 3 && (!BlankFirst(n) ==> FirstIndex3(n, digits) + 3 <= 30)
    ensures |b| == 3
  {
    if BlankFirst(n) then Blank3 else Rows3x3[r][FirstIndex3(n, digits)..FirstIndex3(n, digits) + 3]
  }

  /** The second position of row `r`: three blanks, or the glyph at the second index. */
  function Middle3(r: nat, n: nat, digits: nat, dp: bool): (b: seq<byte>)
    requires r < 3 && (!BlankSecond(n, dp) ==> SecondIndex3(n, digits) + 3 <= 30)
    ensures |b| == 3
  {
    if BlankSecond(n, dp) then Blank3 else Rows3x3[r][SecondIndex3(n, digits)..SecondIndex3(n, digits) + 3]
  }

  /** The third position of row `r`: the point character if the decimal point is on, then the
      glyph of the units. */
  function Tail3(r: nat, n: nat, dp: bool): (b: seq<byte>)
    requires r < 3
  {
    (if dp then [PointChar(r)] else []) + Rows3x3[r][ThirdIndex3(n)..ThirdIndex3(n) + 3]
  }

  /** What follows the first position with more than one digit: the second position and,
      with more than two, the third. */
  function Rest3(r: nat, n: nat, digits: nat, dp: bool): (b: seq<byte>)
    requires r < 3 && InBounds3x3(n, digits, dp)
  {
    if digits > 1 then Middle3(r, n, digits, dp) + (if digits > 2 then Tail3(r, n, dp) else [])
    else []
  }

  /** The data bytes of row `r` of `print3x3Number(column, row, n, digits, dp)` as written. */
  function Row3x3AsWritten(r: nat, n: nat, digits: nat, dp: bool): (b: seq<byte>)
    requires r < 3 && InBounds3x3(n, digits, dp)
  {
    Head3(r, n, digits) + Rest3(r, n, digits, dp)
  }

  /** With three digits the tables are read in bounds for every number below 1000 and, up to
      8599, for no number from 1000 on (from 8600 the byte index wraps). */
  lemma ThreeDigitBounds(n: nat, dp: bool)
    requires n < 8600
    ensures InBounds3x3(n, 3, dp) <==> n < 1000
  {
    if n >= 1000 {
      assert FirstIndex3(n, 3) == (n / 100) * 3;
    }
  }

  /** The row a 3x3 number of up to `digits` (1-3) digits evidently should show: each position
      its own decimal digit, leading zeros blanked except the last position, and with three
      digits the decimal point character before the units. */
  function Row3x3Intended(r: nat, n: nat, digits: nat, dp: bool): (b: seq<byte>)
    requires r < 3 && 1 <= digits <= 3
    requires n < (if digits == 1 then 10 else if digits == 2 then 100 else 1000)
  {
    if digits == 1 then Glyph3(r, n)
    else if digits == 2 then (if n / 10 == 0 then Blank3 else Glyph3(r, n / 10)) + Glyph3(r, n % 10)
    else
      (if n / 100 == 0 then Blank3 else Glyph3(r, n / 100))
      + (if n / 10 == 0 && !dp then Blank3 else Glyph3(r, (n / 10) % 10))
      + (if dp then [PointChar(r)] else [])
      + Glyph3(r, n % 10)
  }

  /** With no leading zero the intended row shows every digit of the number, most significant
      first. */
  lemma IntendedShowsEveryDigit(r: nat, n: nat, digits: nat)
    requires r < 3 && 1 <= digits <= 3
    requires (if digits == 1 then 0 else if digits == 2 then 10 else 100) <= n
    requires n < (if digits == 1 then 10 else if digits == 2 then 100 else 1000)
    ensures digits == 1 ==> Row3x3Intended(r, n, digits, false) == Glyph3(r, n)
    ensures digits == 2 ==> Row3x3Intended(r, n, digits, false) == Glyph3(r, n / 10) + Glyph3(r, n % 10)
    ensures digits == 3 ==> Row3x3Intended(r, n, digits, false)
                            == Glyph3(r, n / 100) + Glyph3(r, (n / 10) % 10) + Glyph3(r, n % 10)
  {
  }

  /** The decimal digits of a number below 1000, as `print3x3Number` extracts them. */
  lemma ThreeDigitIndices(n: nat)
    requires n < 1000
    ensures FirstIndex3(n, 3) == 3 * (n / 100) && n / 100 < 10
    ensures SecondIndex3(n, 3) == 3 * ((n / 10) % 10)
    ensures ThirdIndex3(n) == 3 * (n % 10)
  {
    var h, t, u := n / 100, (n / 10) % 10, n % 10;
    assert n == 100 * h + 10 * t + u;
    assert n % 100 == 10 * t + u;
    assert (n % 100) / 10 == t;
    assert (n % 100) % 10 == u;
    Index3Small(h);
    Index3Small(t);
    Index3Small(u);
  }

  /** With three digits the code does what is intended. */
  lemma ThreeDigitsAsIntended(r: nat, n: nat, dp: bool)
    requires r < 3 && n < 1000
    ensures InBounds3x3(n, 3, dp)
    ensures Row3x3AsWritten(r, n, 3, dp) == Row3x3Intended(r, n, 3, dp)
  {
    ThreeDigitIndices(n);
    assert Head3(r, n, 3) == if n / 100 == 0 then Blank3 else Glyph3(r, n / 100);
    assert Middle3(r, n, 3, dp) == if n / 10 == 0 && !dp then Blank3 else Glyph3(r, (n / 10) % 10);
    assert Tail3(r, n, dp) == (if dp then [PointChar(r)] else []) + Glyph3(r, n % 10);
  }

  /** With fewer digits the blanking tests still look at the hundreds: 42 drawn with two digits
      shows only the 2, and 7 drawn with one digit shows nothing at all. */
  lemma FewerDigitsDropDigits(r: nat)
    requires r < 3
    ensures InBounds3x3(42, 2, false) && InBounds3x3(7, 1, false)
    ensures Row3x3AsWritten(r, 42, 2, false) == Blank3 + Glyph3(r, 2)
    ensures Row3x3AsWritten(r, 7, 1, false) == Blank3
  {
    assert SecondIndex3(42, 2) == 6;
    assert Middle3(r, 42, 2, false) == Glyph3(r, 2);
    assert Rest3(r, 42, 2, false) == Glyph3(r, 2) + [];
    assert Row3x3AsWritten(r, 7, 1, false) == Blank3 + [];
  }

  /** The concrete inputs of the `print3x3Number` finding: `FewerDigitsDropDigits` says which
      glyph is blanked for every number and field width; here the top row of 42 with two digits
      and of 7 with one digit is shown to differ from the intended row, since it starts with a
      blank where the glyph of 4, and of 7, starts with a block. */
  lemma FewerDigitsDiffer()
    ensures InBounds3x3(42, 2, false) && InBounds3x3(7, 1, false)
    ensures Row3x3Intended(0, 42, 2, false) != Row3x3AsWritten(0, 42, 2, false)
    ensures Row3x3Intended(0, 7, 1, false) != Row3x3AsWritten(0, 7, 1, false)
  {
    FewerDigitsDropDigits(0);
    var four, seven := Glyph3(0, 4), Glyph3(0, 7);
    assert four == [31, 32, 31];
    assert seven == [2, 2, 6];
    var two, one := Row3x3AsWritten(0, 42, 2, false), Row3x3AsWritten(0, 7, 1, false);
    assert two[0] == 32 && one == Blank3;
    assert Row3x3Intended(0, 42, 2, false)[0] == four[0];
    assert Row3x3Intended(0, 7, 1, false)[0] == seven[0];
  }

  /** The rows `print4x4Number(column, n)` writes: row `r` at column `column`, tens glyph, a
      blank, units glyph. */
  function Row4x4Frames(column: byte, r: nat, n: nat): (f: seq<Transmission>)
    requires r < 4 && n < 100
    ensures |f| == 10
  {
    [Command(CursorCommand(column, r))] + DataFrames(TwoDigitRow(r, n))
  }

  /** `OLedI2C`: the glyph set last loaded (never assigned by the driver itself) and the bus. */
  class OLedI2C {
    var charSet: int
    var bus: seq<Transmission>

    constructor()
      ensures charSet == 0 && bus == []
    {
      charSet := 0;
      bus := [];
    }

    /** `sendCommand(command)`. */
    method SendCommand(command: byte)
      modifies this`bus
      ensures bus == old(bus) + [Command(command)]
    {
      bus := bus + [Command(command)];
    }

    /** `sendData(data)`: one data transmission. */
    method SendData(data: byte)
      modifies this`bus
      ensures bus == old(bus) + DataFrames([data])
    {
      assert DataFrames([data]) == [Data(data)];
      bus := bus + [Data(data)];
    }

    /** `write(ch)`, what `Print` calls for each character: the character as data. */
    method Write(ch: byte)
      modifies this`bus
      ensures bus == old(bus) + [Data(ch)]
    {
      SendData(ch);
      assert DataFrames([ch]) == [Data(ch)];
    }

    /** `setCursor(col, row)`. */
    method SetCursor(col: byte, row: nat)
      requires row < 4
      modifies this`bus
      ensures bus == old(bus) + [Command(CursorCommand(col, row))]
    {
      SendCommand(0x80 + (col + [0x00, 0x20, 0x40, 0x60][row]) % 0x80);
    }

    /** `clear()`: command 0x01. */
    method Clear()
      modifies this`bus
      ensures bus == old(bus) + [Command(0x01)]
    {
      SendCommand(0x01);
    }

    /** `lcdOff()`: display off, command 0x08. */
    method LcdOff()
      modifies this`bus
      ensures bus == old(bus) + [Command(0x08)]
    {
      SendCommand(0x08);
    }

    /** `lcdOn()`: display on, cursor and blink off, command 0x0C. */
    method LcdOn()
      modifies this`bus
      ensures bus == old(bus) + [Command(0x0C)]
    {
      SendCommand(0x0C);
    }

    /** `BlinkingCursorOn()`: display on with blink, command 0x0D. */
    method BlinkingCursorOn()
      modifies this`bus
      ensures bus == old(bus) + [Command(0x0D)]
    {
      SendCommand(0x0D);
    }

    /** `BlinkingCursorOff()`: the same command as `lcdOn()`. */
    method BlinkingCursorOff()
      modifies this`bus
      ensures bus == old(bus) + [Command(0x0C)]
    {
      SendCommand(0x0C);
    }

    /** The six commands of `FadeOut` or `FadeOutCancel`. */
    method SendFade(on: bool)
      modifies this`bus
      ensures bus == old(bus) + CommandFrames(FadeCommands(on))
    {
      SendCommand(0x2A);
      SendCommand(0x79);
      SendCommand(0x23);
      SendCommand(if on then 0x21 else 0x00);
      SendCommand(0x78);
      SendCommand(0x28);
    }

    /** `FadeOut()`: switch the fade-out mode on. */
    method FadeOut()
      modifies this`bus
      ensures bus == old(bus) + CommandFrames(FadeCommands(true))
    {
      SendFade(true);
    }

    /** `FadeOutCancel()`: switch it off. */
    method FadeOutCancel()
      modifies this`bus
      ensures bus == old(bus) + CommandFrames(FadeCommands(false))
    {
      SendFade(false);
    }

    /** `backlight(contrast)`: enter the OLED command set, set contrast, the value, leave. */
    method Backlight(contrast: byte)
      modifies this`bus
      ensures bus == old(bus) + CommandFrames([0x2A, 0x79, 0x81, contrast, 0x78, 0x28])
    {
      SendCommand(0x2A);
      SendCommand(0x79);
      SendCommand(0x81);
      SendCommand(contrast);
      SendCommand(0x78);
      SendCommand(0x28);
    }

    /** `createChar(location, charmap)`: the CGRAM address of glyph `location & 7`, then the
        first eight bytes of the map as data, in order. */
    method CreateChar(location: byte, charmap: seq<byte>)
      requires 8 <= |charmap|
      modifies this`bus
      ensures bus == old(bus) + CharFrames(location, charmap)
    {
      SendCommand(0x40 + (location % 8) * 8);
      ghost var start := bus;
      var i := 0;
      while i < 8
        invariant 0 <= i <= 8
        invariant bus == start + DataFrames(charmap[..i])
      {
        ghost var before := bus;
        SendData(charmap[i]);
        DataFramesStep(start, before, bus, charmap, i);
        i := i + 1;
      }
    }

    /** The eight `createChar` calls of `defineCustomChar3x3` / `defineCustomChar4x4`. */
    method DefineCustomChars(cc: seq<seq<byte>>)
      requires |cc| == 8 && forall i :: 0 <= i < 8 ==> 8 <= |cc[i]|
      modifies this`bus
      ensures bus == old(bus) + CharSetFrames(cc)
    {
      ghost var start := bus;
      assert cc[..0] == [];
      CreateNextChar(start, cc, 0);
      CreateNextChar(start, cc, 1);
      CreateNextChar(start, cc, 2);
      CreateNextChar(start, cc, 3);
      CreateNextChar(start, cc, 4);
      CreateNextChar(start, cc, 5);
      CreateNextChar(start, cc, 6);
      CreateNextChar(start, cc, 7);
      assert cc[..8] == cc;
    }

    /** `createChar(k, cc[k])` after glyphs 0..k-1 have been defined. */
    method CreateNextChar(ghost start: seq<Transmission>, cc: seq<seq<byte>>, k: nat)
      requires k < |cc| == 8 && forall i :: 0 <= i < 8 ==> 8 <= |cc[i]|
      requires bus == start + CharSetFrames(cc[..k])
      modifies this`bus
      ensures bus == start + CharSetFrames(cc[..k + 1])
    {
      ghost var before := bus;
      CreateChar(k, cc[k]);
      CharSetStep(start, before, bus, cc, k);
    }

    /** Three data bytes from `t` at index `i`. */
    method SendGlyph(t: seq<byte>, i: nat)
      requires i + 3 <= |t|
      modifies this`bus
      ensures bus == old(bus) + DataFrames(t[i..i + 3])
    {
      SendData(t[i]);
      SendData(t[i + 1]);
      DataFramesAppend([t[i]], [t[i + 1]]);
      SendData(t[i + 2]);
      DataFramesAppend([t[i], t[i + 1]], [t[i + 2]]);
      assert [t[i], t[i + 1]] + [t[i + 2]] == t[i..i + 3];
    }

    /** `print("   ")`: three blanks as data. */
    method PrintBlank3()
      modifies this`bus
      ensures bus == old(bus) + DataFrames(Blank3)
    {
      SendGlyph(Blank3, 0);
      assert Blank3[0..3] == Blank3;
    }

    /** The first position of one row block of `print3x3Number`. */
    method SendHead3(r: nat, number: nat, digits: nat, first: nat)
      requires r < 3 && first == FirstIndex3(number, digits)
      requires !BlankFirst(number) ==> first + 3 <= 30
      modifies this`bus
      ensures bus == old(bus) + DataFrames(Head3(r, number, digits))
    {
      if number / 100 == 0 {
        PrintBlank3();
      } else {
        SendGlyph(Rows3x3[r], first);
      }
    }

    /** The second position of one row block. */
    method SendMiddle3(r: nat, number: nat, digits: nat, dp: bool, second: nat)
      requires r < 3 && second == SecondIndex3(number, digits)
      requires !BlankSecond(number, dp) ==> second + 3 <= 30
      modifies this`bus
      ensures bus == old(bus) + DataFrames(Middle3(r, number, digits, dp))
    {
      if number / 100 == 0 && number / 10 == 0 && !dp {
        PrintBlank3();
      } else {
        SendGlyph(Rows3x3[r], second);
      }
    }

    /** The third position of one row block. */
    method SendTail3(r: nat, number: nat, dp: bool, third: nat)
      requires r < 3 && third == ThirdIndex3(number)
      modifies this`bus
      ensures bus == old(bus) + DataFrames(Tail3(r, number, dp))
    {
      ghost var point: seq<byte> := [];
      if dp {
        SendData(if r == 2 then 46 else 32);
        point := [PointChar(r)];
        FramesSnoc(old(bus), old(bus), bus, [], PointChar(r));
      }
      ghost var mid := bus;
      SendGlyph(Rows3x3[r], third);
      FramesConcat(old(bus), mid, bus, point, Rows3x3[r][third..third + 3]);
    }

    /** The positions after the first of one row block. */
    method SendRest3(r: nat, number: nat, digits: nat, dp: bool, second: nat, third: nat)
      requires r < 3 && InBounds3x3(number, digits, dp)
      requires digits > 1 ==> second == SecondIndex3(number, digits)
      requires digits > 2 ==> third == ThirdIndex3(number)
      modifies this`bus
      ensures bus == old(bus) + DataFrames(Rest3(r, number, digits, dp))
    {
      if digits > 1 {
        SendMiddle3(r, number, digits, dp, second);
        if digits > 2 {
          ghost var mid := bus;
          SendTail3(r, number, dp, third);
          FramesConcat(old(bus), mid, bus, Middle3(r, number, digits, dp), Tail3(r, number, dp));
        } else {
          assert Rest3(r, number, digits, dp) == Middle3(r, number, digits, dp);
        }
      }
    }

    /** One row block of `print3x3Number`: its `setCursor`, then the row's data bytes. */
    method Send3x3Row(column: byte, row: nat, r: nat, number: nat, digits: nat, dp: bool,
                      first: nat, second: nat, third: nat)
      requires row < 4 && r < 3 && InBounds3x3(number, digits, dp)
      requires first == FirstIndex3(number, digits)
      requires digits > 1 ==> second == SecondIndex3(number, digits)
      requires digits > 2 ==> third == ThirdIndex3(number)
      modifies this`bus
      ensures bus == old(bus) + [Command(CursorCommand(column, row))]
                     + DataFrames(Row3x3AsWritten(r, number, digits, dp))
    {
      ghost var head, rest := Head3(r, number, digits), Rest3(r, number, digits, dp);
      SetCursor(column, row);
      ghost var cursor := bus;
      SendHead3(r, number, digits, first);
      ghost var mid := bus;
      SendRest3(r, number, digits, dp, second, third);
      FramesConcat(cursor, mid, bus, head, rest);
    }

    /** `print3x3Number(column, row, number, digits, decimalPoint)`: the 3x3 glyphs unless they
        are loaded, then three rows from `row` on, each at `column`. */
    method Print3x3Number(column: byte, row: nat, number: nat, digits: nat, dp: bool)
      requires row + 2 < 4 && number < 0x1_0000 && digits < 256
      requires InBounds3x3(number, digits, dp)
      modifies this`bus
      ensures bus == old(bus) + (if old(charSet) != 1 then CharSetFrames(Chars3x3) else [])
                     + [Command(CursorCommand(column, row))] + DataFrames(Row3x3AsWritten(0, number, digits, dp))
                     + [Command(CursorCommand(column, row + 1))] + DataFrames(Row3x3AsWritten(1, number, digits, dp))
                     + [Command(CursorCommand(column, row + 2))] + DataFrames(Row3x3AsWritten(2, number, digits, dp))
    {
      var first, second, third := 0, 0, Index3(0);
      if digits == 1 {
        first := Index3(number);
      } else if digits == 2 {
        first := Index3(number / 10);
        second := Index3(number % 10);
      } else {
        first := Index3(number / 100);
        second := Index3((number % 100) / 10);
        third := Index3((number % 100) % 10);
      }
      assert first == FirstIndex3(number, digits);
      assert digits > 1 ==> second == SecondIndex3(number, digits);
      assert digits > 2 ==> third == ThirdIndex3(number);
      ghost var glyphs := if charSet != 1 then CharSetFrames(Chars3x3) else [];
      if charSet != 1 {
        DefineCustomChars(Chars3x3);
      }
      ghost var loaded := bus;
      assert loaded == old(bus) + glyphs;
      Send3x3Row(column, row, 0, number, digits, dp, first, second, third);
      Send3x3Row(column, row + 1, 1, number, digits, dp, first, second, third);
      Send3x3Row(column, row + 2, 2, number, digits, dp, first, second, third);
    }

    /** The three data bytes of digit `d` in row `r` of the 3x3 set. */
    method SendDigit3(r: nat, d: nat)
      requires r < 3 && d < 10
      modifies this`bus
      ensures bus == old(bus) + DataFrames(Glyph3(r, d))
    {
      SendGlyph(Rows3x3[r], 3 * d);
    }

    /** The data bytes of one row of a two-digit number, a leading zero blanked. */
    method SendTwoDigits3(r: nat, n: nat)
      requires r < 3 && n < 100
      modifies this`bus
      ensures bus == old(bus) + DataFrames((if n / 10 == 0 then Blank3 else Glyph3(r, n / 10)) + Glyph3(r, n % 10))
    {
      ghost var head := if n / 10 == 0 then Blank3 else Glyph3(r, n / 10);
      ghost var start := bus;
      if n / 10 == 0 {
        PrintBlank3();
      } else {
        SendDigit3(r, n / 10);
      }
      assert bus == start + DataFrames(head);
      SendDigit3(r, n % 10);
      DataFramesAppend(head, Glyph3(r, n % 10));
    }

    /** One row block of the 3x3 number as evidently intended: every position blanked only for
        a leading zero of the number drawn with `digits` digits. */
    method SendIntendedRow(column: byte, row: nat, r: nat, n: nat, digits: nat, dp: bool)
      requires row < 4 && r < 3 && 1 <= digits <= 3
      requires n < (if digits == 1 then 10 else if digits == 2 then 100 else 1000)
      modifies this`bus
      ensures bus == old(bus) + [Command(CursorCommand(column, row))]
                     + DataFrames(Row3x3Intended(r, n, digits, dp))
    {
      if digits == 3 {
        ThreeDigitsAsIntended(r, n, dp);
        Send3x3Row(column, row, r, n, 3, dp, FirstIndex3(n, 3), SecondIndex3(n, 3), ThirdIndex3(n));
      } else if digits == 2 {
        SetCursor(column, row);
        SendTwoDigits3(r, n);
      } else {
        SetCursor(column, row);
        SendDigit3(r, n);
      }
    }

    /** `print3x3Number` with the blanking tests it evidently means: a number of `digits`
        digits shows each of them, leading zeros blanked. */
    method Print3x3Intended(column: byte, row: nat, number: nat, digits: nat, dp: bool)
      requires row + 2 < 4 && 1 <= digits <= 3
      requires number < (if digits == 1 then 10 else if digits == 2 then 100 else 1000)
      modifies this`bus
      ensures bus == old(bus) + (if old(charSet) != 1 then CharSetFrames(Chars3x3) else [])
                     + [Command(CursorCommand(column, row))] + DataFrames(Row3x3Intended(0, number, digits, dp))
                     + [Command(CursorCommand(column, row + 1))] + DataFrames(Row3x3Intended(1, number, digits, dp))
                     + [Command(CursorCommand(column, row + 2))] + DataFrames(Row3x3Intended(2, number, digits, dp))
    {
      if charSet != 1 {
        DefineCustomChars(Chars3x3);
      }
      SendIntendedRow(column, row, 0, number, digits, dp);
      SendIntendedRow(column, row + 1, 1, number, digits, dp);
      SendIntendedRow(column, row + 2, 2, number, digits, dp);
    }

    /** Four data bytes from `t` at index `i`. */
    method SendQuad(t: seq<byte>, i: nat)
      requires i + 4 <= |t|
      modifies this`bus
      ensures bus == old(bus) + DataFrames(t[i..i + 4])
    {
      SendGlyph(t, i);
      ghost var mid := bus;
      SendData(t[i + 3]);
      FramesSnoc(old(bus), mid, bus, t[i..i + 3], t[i + 3]);
      assert t[i..i + 3] + [t[i + 3]] == t[i..i + 4];
    }

    /** Row `r` of `print4x4Number`: its `setCursor` and nine data bytes. */
    method Send4x4Row(column: byte, r: nat, number: nat)
      requires r < 4 && number < 100
      modifies this`bus
      ensures bus == old(bus) + Row4x4Frames(column, r, number)
    {
      ghost var tens, units := Glyph4(r, number / 10), Glyph4(r, number % 10);
      SetCursor(column, r);
      ghost var cursor := bus;
      SendQuad(Rows4x4[r], 4 * (number / 10));
      ghost var m1 := bus;
      SendData(32);
      FramesSnoc(cursor, m1, bus, tens, 32);
      ghost var m2 := bus;
      SendQuad(Rows4x4[r], 4 * (number % 10));
      FramesConcat(cursor, m2, bus, tens + [32], units);
      assert TwoDigitRow(r, number) == tens + [32] + units;
    }

    /** `print4x4Number(column, number)`: the 4x4 glyphs unless they are loaded, then the four
        rows of the two-digit number at `column`. */
    method Print4x4Number(column: byte, number: nat)
      requires number < 100
      modifies this`bus
      ensures bus == old(bus) + (if old(charSet) != 2 then CharSetFrames(Chars4x4) else [])
                     + Row4x4Frames(column, 0, number) + Row4x4Frames(column, 1, number)
                     + Row4x4Frames(column, 2, number) + Row4x4Frames(column, 3, number)
    {
      if charSet != 2 {
        DefineCustomChars(Chars4x4);
      }
      Send4x4Row(column, 0, number);
      Send4x4Row(column, 1, number);
      Send4x4Row(column, 2, number);
      Send4x4Row(column, 3, number);
    }
  }
}

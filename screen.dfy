/** The screen helpers of the B1 controller (src/screen.cpp): on/off, padded text, the progress
    bar and two-digit 4x4 numbers, all drawn on the SSD1311 OLED. */
module Screen {
  import opened Common
  import opened BigDigits
  import opened OledI2c

  /** The number of columns of the display. */
  const LcdColumns: nat := 20

  /** Whether a NUL occurs among the first `i` characters. */
  predicate NulBefore(text: seq<byte>, i: nat)
    requires i <= |text|
  {
    exists j :: 0 <= j < i && text[j] == 0
  }

  /** The characters `lcd_print(text, size)` writes, one per position: position `i` shows
      `text[i]` until a NUL has been seen at or before `i`, a blank from then on. */
  function Padded(text: seq<byte>, size: nat): (p: seq<byte>)
    requires size <= |text|
    ensures |p| == size
  {
    seq(size, i requires 0 <= i < size => if NulBefore(text, i + 1) then 32 else text[i])
  }

  /** The position of the first NUL among the first `size` characters, or `size`. */
  function FirstNul(text: seq<byte>, size: nat): (k: nat)
    requires size <= |text|
    ensures k <= size
    ensures forall j :: 0 <= j < k ==> text[j] != 0
    ensures k < size ==> text[k] == 0
  {
    if size == 0 then 0
    else
      var k := FirstNul(text, size - 1);
      if k < size - 1 then k else if text[size - 1] == 0 then size - 1 else size
  }

  /** `size` blanks. */
  function Blanks(size: nat): (b: seq<byte>)
    ensures |b| == size && forall i :: 0 <= i < size ==> b[i] == 32
  {
    seq(size, _ => 32)
  }

  /** The padded text is the text up to its first NUL, then blanks up to `size`. */
  lemma PaddedIsTextThenBlanks(text: seq<byte>, size: nat)
    requires size <= |text|
    ensures Padded(text, size) == text[..FirstNul(text, size)] + Blanks(size - FirstNul(text, size))
  {
    var k := FirstNul(text, size);
    var p, q := Padded(text, size), text[..k] + Blanks(size - k);
    forall i | 0 <= i < size
      ensures p[i] == q[i]
    {
      if i < k {
        assert !NulBefore(text, i + 1);
      } else {
        assert text[k] == 0;
      }
    }
  }

  /** One more position of the padded text. */
  lemma PaddedSnoc(text: seq<byte>, i: nat)
    requires i < |text|
    ensures Padded(text, i + 1) == Padded(text, i) + [if NulBefore(text, i + 1) then 32 else text[i]]
  {
  }

  /** The column of the bar mark for a percentage: `int((LCDCOLUMNS - 1.0) * p / 100.0)` with
      `p` clamped to 100. */
  function BarColumn(p: byte): (c: byte)
    ensures c <= LcdColumns - 1
    ensures c == LcdColumns - 1 <==> p >= 100
  {
    (LcdColumns - 1) * (if p > 100 then 100 else p) / 100
  }

  /** A larger percentage never moves the mark to the left. */
  lemma BarColumnMonotone(p: byte, q: byte)
    requires p <= q
    ensures BarColumn(p) <= BarColumn(q)
  {
    var p', q' := if p > 100 then 100 else p, if q > 100 then 100 else q;
    assert (LcdColumns - 1) * p' <= (LcdColumns - 1) * q';
  }

  /** The screen: the `LCDState` flag and the display it drives. */
  class Display {
    var lcdOn: bool
    const lcd: OLedI2C

    constructor(lcd: OLedI2C)
      ensures this.lcd == lcd && lcdOn
    {
      this.lcd := lcd;
      lcdOn := true;
    }

    /** `setLCDOn()`: `LCDState = ON` and the display-on command. */
    method SetLcdOn()
      modifies this`lcdOn, lcd`bus
      ensures lcdOn && lcd.bus == old(lcd.bus) + [Command(0x0C)]
    {
      lcdOn := true;
      lcd.LcdOn();
    }

    /** `setLCDOff()`: `LCDState = OFF` and the display-off command. */
    method SetLcdOff()
      modifies this`lcdOn, lcd`bus
      ensures !lcdOn && lcd.bus == old(lcd.bus) + [Command(0x08)]
    {
      lcdOn := false;
      lcd.LcdOff();
    }

    /** `lcd_print(text, size)`: exactly `size` characters, the text padded with blanks from
        its first NUL on. */
    method LcdPrint(text: seq<byte>, size: byte)
      requires size <= |text|
      modifies lcd`bus
      ensures lcd.bus == old(lcd.bus) + DataFrames(Padded(text, size))
    {
      var eot := false;
      var i: nat := 0;
      while i < size
        invariant i <= size
        invariant eot <==> NulBefore(text, i)
        invariant lcd.bus == old(lcd.bus) + DataFrames(Padded(text, i))
      {
        if text[i] == 0 {
          eot := true;
        }
        var ch: byte := if eot then 32 else text[i];
        assert eot <==> NulBefore(text, i + 1);
        lcd.Write(ch);
        PaddedSnoc(text, i);
        DataFramesAppend(Padded(text, i), [ch]);
        assert DataFrames([ch]) == [Data(ch)];
        i := i + 1;
      }
    }

    /** `printBar(p)`: nothing for 0, otherwise character 31 in row 1 at the bar column. */
    method PrintBar(p: byte)
      modifies lcd`bus
      ensures p == 0 ==> lcd.bus == old(lcd.bus)
      ensures p > 0 ==> lcd.bus == old(lcd.bus) + [Command(CursorCommand(BarColumn(p), 1)), Data(31)]
    {
      if p == 0 {
        return;
      }
      var q := p;
      if q > 100 {
        q := 100;
      }
      lcd.SetCursor((LcdColumns - 1) * q / 100, 1);
      lcd.Write(31);
    }

    /** `printTwoNumber(column, number)`: the four rows of a two-digit number in the 4x4 set,
        each at `column`: tens glyph, a blank, units glyph. */
    method PrintTwoNumber(column: byte, number: byte)
      requires number < 100
      modifies lcd`bus
      ensures lcd.bus == old(lcd.bus)
                         + Row4x4Frames(column, 0, number) + Row4x4Frames(column, 1, number)
                         + Row4x4Frames(column, 2, number) + Row4x4Frames(column, 3, number)
    {
      lcd.Send4x4Row(column, 0, number);
      lcd.Send4x4Row(column, 1, number);
      lcd.Send4x4Row(column, 2, number);
      lcd.Send4x4Row(column, 3, number);
    }

    /** `defineCustomChar()`: the eight glyphs of the 4x4 set into CGRAM 0..7. */
    method DefineCustomChar()
      modifies lcd`bus
      ensures lcd.bus == old(lcd.bus) + CharSetFrames(Chars4x4)
    {
      lcd.DefineCustomChars(Chars4x4);
    }
  }
}

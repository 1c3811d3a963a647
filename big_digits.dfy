/** The big-digit glyph tables shared by the OLED driver and the screen helpers: a 4x4 set
    (digits four characters wide and four rows high) and a 3x3 set, each drawn from eight
    custom characters (codes 0-7) plus a few built-in ones (31 a full block, 32 a blank, 208 on
    the OLED a lower bar). Glyph `d` of a row table is the slice starting at width * d. */
module BigDigits {
  import opened Common

  /** Rows 1-4 of the 4x4 digits 0-9, four characters per digit. */
  const Bn1: seq<byte> := [5, 2, 2, 1, 32, 5, 31, 32, 5, 2, 2, 1, 2, 2, 2, 1, 31, 32, 32, 31,
                          31, 2, 2, 2, 5, 2, 2, 2, 2, 2, 2, 31, 5, 2, 2, 1, 5, 2, 2, 1]
  const Bn2: seq<byte> := [31, 32, 32, 31, 32, 32, 31, 32, 0, 3, 3, 7, 32, 3, 3, 31, 4, 3, 3, 31,
                          4, 3, 3, 6, 31, 3, 3, 6, 32, 32, 0, 7, 31, 3, 3, 31, 4, 3, 3, 31]
  const Bn3: seq<byte> := [31, 32, 32, 31, 32, 32, 31, 32, 31, 32, 32, 32, 32, 32, 32, 31, 32, 32, 32, 31,
                          32, 32, 32, 31, 31, 32, 32, 31, 32, 32, 31, 32, 31, 32, 32, 31, 32, 32, 32, 31]
  const Bn4: seq<byte> := [4, 3, 3, 7, 32, 3, 31, 3, 4, 3, 3, 3, 4, 3, 3, 7, 32, 32, 32, 31,
                          4, 3, 3, 7, 4, 3, 3, 7, 32, 32, 31, 32, 4, 3, 3, 7, 4, 3, 3, 7]

  /** Rows 1-3 of the 3x3 digits 0-9, three characters per digit. */
  const Sn1: seq<byte> := [5, 2, 6, 32, 5, 32, 2, 2, 6, 2, 2, 6, 31, 32, 31, 31, 2, 2, 5, 2, 2,
                          2, 2, 6, 5, 2, 6, 5, 2, 6]
  const Sn2: seq<byte> := [31, 32, 31, 32, 31, 32, 7, 208, 2, 32, 208, 31, 0, 208, 31, 0, 208, 1,
                          31, 208, 1, 32, 32, 31, 31, 208, 31, 0, 208, 31]
  const Sn3: seq<byte> := [4, 7, 3, 32, 31, 32, 4, 7, 7, 7, 7, 3, 32, 32, 31, 7, 7, 3, 4, 7, 3,
                          32, 32, 3, 4, 7, 3, 7, 7, 3]

  /** The row tables of each set, top row first. */
  const Rows4x4: seq<seq<byte>> := [Bn1, Bn2, Bn3, Bn4]
  const Rows3x3: seq<seq<byte>> := [Sn1, Sn2, Sn3]

  /** The eight 5x8 custom characters of the 4x4 set, eight pixel rows each. */
  const Chars4x4: seq<seq<byte>> := [
    [0x00, 0x00, 0x00, 0x01, 0x03, 0x07, 0x0F, 0x1F],
    [0x10, 0x18, 0x1C, 0x1E, 0x1F, 0x1F, 0x1F, 0x1F],
    [0x1F, 0x1F, 0x1F, 0x1F, 0x1F, 0x00, 0x00, 0x00],
    [0x00, 0x00, 0x00, 0x1F, 0x1F, 0x1F, 0x1F, 0x1F],
    [0x1F, 0x1F, 0x1F, 0x1F, 0x0F, 0x07, 0x03, 0x01],
    [0x01, 0x03, 0x07, 0x0F, 0x1F, 0x1F, 0x1F, 0x1F],
    [0x00, 0x00, 0x00, 0x10, 0x18, 0x1C, 0x1E, 0x1F],
    [0x1F, 0x1F, 0x1F, 0x1F, 0x1E, 0x1C, 0x18, 0x10]]

  /** The eight custom characters of the 3x3 set. */
  const Chars3x3: seq<seq<byte>> := [
    [0x1F, 0x1F, 0x1F, 0x0F, 0x07, 0x03, 0x00, 0x00],
    [0x00, 0x10, 0x18, 0x1C, 0x1E, 0x1F, 0x1F, 0x1F],
    [0x1F, 0x1F, 0x1F, 0x1F, 0x1F, 0x00, 0x00, 0x00],
    [0x1F, 0x1F, 0x1F, 0x1F, 0x1F, 0x1E, 0x1C, 0x18],
    [0x1F, 0x1F, 0x1F, 0x1F, 0x1F, 0x0F, 0x07, 0x03],
    [0x03, 0x07, 0x0F, 0x1F, 0x1F, 0x1F, 0x1F, 0x1F],
    [0x18, 0x1C, 0x1E, 0x1F, 0x1F, 0x1F, 0x1F, 0x1F],
    [0x00, 0x00, 0x00, 0x1F, 0x1F, 0x1F, 0x1F, 0x1F]]

  /** Three blanks, what `print("   ")` puts in place of a suppressed 3x3 digit. */
  const Blank3: seq<byte> := [32, 32, 32]

  /** The four characters of digit `d` in one row of the 4x4 set. */
  function Glyph4(row: nat, d: nat): (g: seq<byte>)
    requires row < 4 && d < 10
    ensures |g| == 4
  {
    Rows4x4[row][4 * d..4 * d + 4]
  }

  /** The three characters of digit `d` in one row of the 3x3 set. */
  function Glyph3(row: nat, d: nat): (g: seq<byte>)
    requires row < 3 && d < 10
    ensures |g| == 3
  {
    Rows3x3[row][3 * d..3 * d + 3]
  }

  /** A two-digit number as the 4x4 set draws it in one row: tens, one blank, units. */
  function TwoDigitRow(row: nat, n: nat): (r: seq<byte>)
    requires row < 4 && n < 100
    ensures |r| == 9 && r[4] == 32
    ensures r[..4] == Glyph4(row, n / 10) && r[5..] == Glyph4(row, n % 10)
  {
    Glyph4(row, n / 10) + [32] + Glyph4(row, n % 10)
  }

  /** The four rows of a 4x4 digit. */
  function Stack4(d: nat): (s: seq<seq<byte>>)
    requires d < 10
    ensures |s| == 4
  {
    [Glyph4(0, d), Glyph4(1, d), Glyph4(2, d), Glyph4(3, d)]
  }

  /** The three rows of a 3x3 digit. */
  function Stack3(d: nat): (s: seq<seq<byte>>)
    requires d < 10
    ensures |s| == 3
  {
    [Glyph3(0, d), Glyph3(1, d), Glyph3(2, d)]
  }

  /** `(n / 10) * 4 + k` and `(n % 10) * 4 + k`, k < 4, index the 40-entry tables exactly when
      n < 100; a byte n never wraps the index. */
  lemma TwoDigitIndicesInBounds(n: nat)
    requires n < 256
    ensures (n / 10) * 4 + 3 < |Bn1| <==> n < 100
    ensures (n % 10) * 4 + 3 < |Bn1|
    ensures (n / 10) * 4 < 256
  {
  }

  /** The 4x4 digit whose top row ends in `a` and whose second row starts with `b`, `c`; -1
      when no digit does. */
  function DigitOfKey4(a: byte, b: byte, c: byte): (d: int)
    ensures -1 <= d < 10
  {
    if a == 1 && b == 31 && c == 32 then 0
    else if a == 32 && b == 32 && c == 32 then 1
    else if a == 1 && b == 0 && c == 3 then 2
    else if a == 1 && b == 32 && c == 3 then 3
    else if a == 31 && b == 4 && c == 3 then 4
    else if a == 2 && b == 4 && c == 3 then 5
    else if a == 2 && b == 31 && c == 3 then 6
    else if a == 31 && b == 32 && c == 32 then 7
    else if a == 1 && b == 31 && c == 3 then 8
    else if a == 1 && b == 4 && c == 3 then 9
    else -1
  }

  /** Reading a drawn 4x4 digit back from three of its characters. */
  function ReadDigit4(s: seq<seq<byte>>): (d: int)
    requires |s| == 4 && |s[0]| == 4 && |s[1]| == 4
    ensures -1 <= d < 10
  {
    DigitOfKey4(s[0][3], s[1][0], s[1][1])
  }

  /** The 3x3 digit whose top row ends in `a` and whose middle row starts with `b`, `c`; -1
      when no digit does. */
  function DigitOfKey3(a: byte, b: byte, c: byte): (d: int)
    ensures -1 <= d < 10
  {
    if a == 6 && b == 31 && c == 32 then 0
    else if a == 32 && b == 32 && c == 31 then 1
    else if a == 6 && b == 7 && c == 208 then 2
    else if a == 6 && b == 32 && c == 208 then 3
    else if a == 31 && b == 0 && c == 208 then 4
    else if a == 2 && b == 0 && c == 208 then 5
    else if a == 2 && b == 31 && c == 208 then 6
    else if a == 6 && b == 32 && c == 32 then 7
    else if a == 6 && b == 31 && c == 208 then 8
    else if a == 6 && b == 0 && c == 208 then 9
    else -1
  }

  /** Reading a drawn 3x3 digit back from three of its characters. */
  function ReadDigit3(s: seq<seq<byte>>): (d: int)
    requires |s| == 3 && |s[0]| == 3 && |s[1]| == 3
    ensures -1 <= d < 10
  {
    DigitOfKey3(s[0][2], s[1][0], s[1][1])
  }

  /** The key characters of digit d of the 4x4 set, at their literal positions: the ten cases of
      `KeyBack4`, one lemma per digit so that each evaluates its literals in a proof of its own. */
  lemma KeyChars4Of0()
    ensures DigitOfKey4(Bn1[3], Bn2[0], Bn2[1]) == 0
  {
  }

  lemma KeyChars4Of1()
    ensures DigitOfKey4(Bn1[7], Bn2[4], Bn2[5]) == 1
  {
  }

  lemma KeyChars4Of2()
    ensures DigitOfKey4(Bn1[11], Bn2[8], Bn2[9]) == 2
  {
  }

  lemma KeyChars4Of3()
    ensures DigitOfKey4(Bn1[15], Bn2[12], Bn2[13]) == 3
  {
  }

  lemma KeyChars4Of4()
    ensures DigitOfKey4(Bn1[19], Bn2[16], Bn2[17]) == 4
  {
  }

  lemma KeyChars4Of5()
    ensures DigitOfKey4(Bn1[23], Bn2[20], Bn2[21]) == 5
  {
  }

  lemma KeyChars4Of6()
    ensures DigitOfKey4(Bn1[27], Bn2[24], Bn2[25]) == 6
  {
  }

  lemma KeyChars4Of7()
    ensures DigitOfKey4(Bn1[31], Bn2[28], Bn2[29]) == 7
  {
  }

  lemma KeyChars4Of8()
    ensures DigitOfKey4(Bn1[35], Bn2[32], Bn2[33]) == 8
  {
  }

  lemma KeyChars4Of9()
    ensures DigitOfKey4(Bn1[39], Bn2[36], Bn2[37]) == 9
  {
  }

  /** The key characters of every 4x4 digit identify it. */
  lemma KeyBack4(d: nat)
    requires d < 10
    ensures DigitOfKey4(Bn1[4 * d + 3], Bn2[4 * d], Bn2[4 * d + 1]) == d
  {
    if d == 0 {
      KeyChars4Of0();
      assert 4 * d == 0;
    } else if d == 1 {
      KeyChars4Of1();
      assert 4 * d == 4;
    } else if d == 2 {
      KeyChars4Of2();
      assert 4 * d == 8;
    } else if d == 3 {
      KeyChars4Of3();
      assert 4 * d == 12;
    } else if d == 4 {
      KeyChars4Of4();
      assert 4 * d == 16;
    } else if d == 5 {
      KeyChars4Of5();
      assert 4 * d == 20;
    } else if d == 6 {
      KeyChars4Of6();
      assert 4 * d == 24;
    } else if d == 7 {
      KeyChars4Of7();
      assert 4 * d == 28;
    } else if d == 8 {
      KeyChars4Of8();
      assert 4 * d == 32;
    } else {
      KeyChars4Of9();
      assert 4 * d == 36;
    }
  }

  /** Every drawn 4x4 digit reads back as itself. */
  lemma ReadBack4(d: nat)
    requires d < 10
    ensures ReadDigit4(Stack4(d)) == d
  {
    KeyBack4(d);
    var s := Stack4(d);
    assert s[0][3] == Bn1[4 * d + 3] && s[1][0] == Bn2[4 * d] && s[1][1] == Bn2[4 * d + 1];
  }

  /** The key characters of digit d of the 3x3 set, at their literal positions: the ten cases of
      `KeyBack3`, one lemma per digit so that each evaluates its literals in a proof of its own. */
  lemma KeyChars3Of0()
    ensures DigitOfKey3(Sn1[2], Sn2[0], Sn2[1]) == 0
  {
  }

  lemma KeyChars3Of1()
    ensures DigitOfKey3(Sn1[5], Sn2[3], Sn2[4]) == 1
  {
  }

  lemma KeyChars3Of2()
    ensures DigitOfKey3(Sn1[8], Sn2[6], Sn2[7]) == 2
  {
  }

  lemma KeyChars3Of3()
    ensures DigitOfKey3(Sn1[11], Sn2[9], Sn2[10]) == 3
  {
  }

  lemma KeyChars3Of4()
    ensures DigitOfKey3(Sn1[14], Sn2[12], Sn2[13]) == 4
  {
  }

  lemma KeyChars3Of5()
    ensures DigitOfKey3(Sn1[17], Sn2[15], Sn2[16]) == 5
  {
  }

  lemma KeyChars3Of6()
    ensures DigitOfKey3(Sn1[20], Sn2[18], Sn2[19]) == 6
  {
  }

  lemma KeyChars3Of7()
    ensures DigitOfKey3(Sn1[23], Sn2[21], Sn2[22]) == 7
  {
  }

  lemma KeyChars3Of8()
    ensures DigitOfKey3(Sn1[26], Sn2[24], Sn2[25]) == 8
  {
  }

  lemma KeyChars3Of9()
    ensures DigitOfKey3(Sn1[29], Sn2[27], Sn2[28]) == 9
  {
  }

  /** The key characters of every 3x3 digit identify it. */
  lemma KeyBack3(d: nat)
    requires d < 10
    ensures DigitOfKey3(Sn1[3 * d + 2], Sn2[3 * d], Sn2[3 * d + 1]) == d
  {
    if d == 0 {
      KeyChars3Of0();
      assert 3 * d == 0;
    } else if d == 1 {
      KeyChars3Of1();
      assert 3 * d == 3;
    } else if d == 2 {
      KeyChars3Of2();
      assert 3 * d == 6;
    } else if d == 3 {
      KeyChars3Of3();
      assert 3 * d == 9;
    } else if d == 4 {
      KeyChars3Of4();
      assert 3 * d == 12;
    } else if d == 5 {
      KeyChars3Of5();
      assert 3 * d == 15;
    } else if d == 6 {
      KeyChars3Of6();
      assert 3 * d == 18;
    } else if d == 7 {
      KeyChars3Of7();
      assert 3 * d == 21;
    } else if d == 8 {
      KeyChars3Of8();
      assert 3 * d == 24;
    } else {
      KeyChars3Of9();
      assert 3 * d == 27;
    }
  }

  /** Every drawn 3x3 digit reads back as itself. */
  lemma ReadBack3(d: nat)
    requires d < 10
    ensures ReadDigit3(Stack3(d)) == d
  {
    KeyBack3(d);
    var s := Stack3(d);
    assert s[0][2] == Sn1[3 * d + 2] && s[1][0] == Sn2[3 * d] && s[1][1] == Sn2[3 * d + 1];
  }

  /** So every digit of either set is drawn differently. */
  lemma DigitsDistinguishable(d1: nat, d2: nat)
    requires d1 < 10 && d2 < 10 && d1 != d2
    ensures Stack4(d1) != Stack4(d2)
    ensures Stack3(d1) != Stack3(d2)
  {
    ReadBack4(d1);
    ReadBack4(d2);
    ReadBack3(d1);
    ReadBack3(d2);
  }

  /** So two different numbers below 100 are drawn differently in at least one row. */
  lemma TwoDigitNumbersDistinguishable(n1: nat, n2: nat)
    requires n1 < 100 && n2 < 100 && n1 != n2
    ensures exists row :: 0 <= row < 4 && TwoDigitRow(row, n1) != TwoDigitRow(row, n2)
  {
    var d1, d2 := if n1 / 10 != n2 / 10 then n1 / 10 else n1 % 10,
                  if n1 / 10 != n2 / 10 then n2 / 10 else n2 % 10;
    DigitsDistinguishable(d1, d2);
    var row :| 0 <= row < 4 && Stack4(d1)[row] != Stack4(d2)[row];
    if n1 / 10 != n2 / 10 {
      assert TwoDigitRow(row, n1)[..4] != TwoDigitRow(row, n2)[..4];
    } else {
      assert TwoDigitRow(row, n1)[5..] != TwoDigitRow(row, n2)[5..];
    }
  }
}

/** The bit-level NEC infrared decoder of the VxD firmware (Hifiduino's routine for the Apple
    remote). The receiver pin is given as the widths, in microseconds, of its successive HIGH
    pulses; `pulseIn(pin, HIGH, timeout)` returns the next width if it is below the timeout and 0
    otherwise, and 0 once the pulses are exhausted. */
module NecDecoder {
  import opened Common

  const StartTimeout := 15000
  const BitTimeout := 3000
  /** Start spaces below this are not a frame start and are skipped. */
  const StartMin := 2000
  /** Start spaces in [StartMin, RepeatMax) are the repeat code. */
  const RepeatMax := 3000
  /** Start spaces in [RepeatMax, CommandMax) announce a 32-bit command. */
  const CommandMax := 5000
  /** A bit pulse longer than this is a "1". */
  const OneMin := 1000
  const KeyError := 255
  const KeyRepeat := 0

  /** What the `k`-th call of `pulseIn` with `timeout` returns. */
  function Pulse(pulses: seq<nat>, k: nat, timeout: nat): (d: nat)
    ensures d < timeout || d == 0
  {
    if k < |pulses| && pulses[k] < timeout then pulses[k] else 0
  }

  /** The index of the pulse that ends the "wait for start pulse" loop: the first from `k` on
      that is 0 or at least StartMin wide. */
  function StartIndex(pulses: seq<nat>, k: nat): (j: nat)
    ensures k <= j
    ensures Pulse(pulses, j, StartTimeout) == 0 || Pulse(pulses, j, StartTimeout) >= StartMin
    ensures forall m :: k <= m < j ==> 0 < Pulse(pulses, m, StartTimeout) < StartMin
    decreases |pulses| - k
  {
    var d := Pulse(pulses, k, StartTimeout);
    if d < StartMin && d != 0 then StartIndex(pulses, k + 1) else k
  }

  /** The eight bits read from pulse `k` on, least significant first. */
  function Bits(pulses: seq<nat>, k: nat): (bits: seq<bool>)
    ensures |bits| == 8
  {
    seq(8, m requires 0 <= m < 8 => Pulse(pulses, k + m, BitTimeout) > OneMin)
  }

  function Pow2(n: nat): (p: nat)
    ensures p >= 1
  {
    if n == 0 then 1 else 2 * Pow2(n - 1)
  }

  /** The number whose bit m is `bits[m]`. */
  function LsbFirst(bits: seq<bool>): nat
    decreases |bits|
  {
    if bits == [] then 0
    else LsbFirst(bits[..|bits| - 1]) + (if bits[|bits| - 1] then Pow2(|bits| - 1) else 0)
  }

  /** n bits hold a number below 2^n. */
  lemma {:induction false} LsbFirstBound(bits: seq<bool>)
    ensures LsbFirst(bits) < Pow2(|bits|)
    decreases |bits|
  {
    if bits != [] {
      LsbFirstBound(bits[..|bits| - 1]);
    }
  }

  /** `getIRkey()` as written: `None` where control reaches the end of the function without a
      `return` (a start space of CommandMax or more). */
  function FrameAsWritten(pulses: seq<nat>): (r: Option<int>)
    ensures r.Some? ==> r.value == KeyError || 0 <= r.value <= 127
  {
    var j := StartIndex(pulses, 0);
    var d := Pulse(pulses, j, StartTimeout);
    if d == 0 then Some(KeyError)
    else if d < RepeatMax then Some(KeyRepeat)
    else if d < CommandMax then
      var bits := Bits(pulses, j + 17);
      LsbFirstBound(bits);
      Some(LsbFirst(bits) / 2)
    else None
  }

  /** A single 6 ms start space makes the function end without a return value. */
  lemma LongStartHasNoResult()
    ensures FrameAsWritten([6000]) == None
  {
    assert StartIndex([6000], 0) == 0;
  }

  /** `getIRkey()` with the missing case read as noise: 255 for no or unusable frame, 0 for the
      repeat code, the upper seven bits of the third byte for a command. */
  function Key(pulses: seq<nat>): (key: int)
    ensures key == KeyError || 0 <= key <= 127
    ensures FrameAsWritten(pulses).Some? ==> key == FrameAsWritten(pulses).value
    ensures FrameAsWritten(pulses).None? ==> key == KeyError
  {
    match FrameAsWritten(pulses)
    case Some(k) => k
    case None => KeyError
  }

  /** What the decoder makes of the first usable start space `d` (the first pulse of at least
      StartMin, or a timeout): a timeout is the error key, a short space the repeat code, a
      medium one a command read from the third byte, a long one no result. */
  lemma FrameClassification(pulses: seq<nat>)
    ensures var j := StartIndex(pulses, 0);
            var d := Pulse(pulses, j, StartTimeout);
            && (d == 0 ==> FrameAsWritten(pulses) == Some(KeyError))
            && (StartMin <= d < RepeatMax ==> FrameAsWritten(pulses) == Some(KeyRepeat))
            && (RepeatMax <= d < CommandMax ==>
                  FrameAsWritten(pulses) == Some(LsbFirst(Bits(pulses, j + 17)) / 2))
            && (CommandMax <= d ==> FrameAsWritten(pulses) == None && Key(pulses) == KeyError)
  {
  }

  /** Nominal HIGH widths of the NEC protocol as the receiver delivers them, in microseconds:
      the start space of a command frame, of a repeat frame, and the spaces of a "1" and a
      "0" bit. */
  const SpaceStart := 4500
  const SpaceRepeat := 2250
  const SpaceOne := 1690
  const SpaceZero := 560

  /** The lowest `n` bits of `b`, least significant first. */
  function ToBits(b: nat, n: nat): (bits: seq<bool>)
    ensures |bits| == n
  {
    if n == 0 then [] else [b % 2 == 1] + ToBits(b / 2, n - 1)
  }

  /** Prepending a bit doubles the rest and adds the bit. */
  lemma {:induction false} LsbFirstCons(x: bool, s: seq<bool>)
    ensures LsbFirst([x] + s) == (if x then 1 else 0) + 2 * LsbFirst(s)
    decreases |s|
  {
    if s == [] {
      assert ([x] + s)[..0] == [];
    } else {
      var n := |s| - 1;
      assert ([x] + s)[..|s|] == [x] + s[..n];
      LsbFirstCons(x, s[..n]);
    }
  }

  /** Reading back the bits of a number below 2^n gives the number. */
  lemma {:induction false} ToBitsRoundTrip(b: nat, n: nat)
    requires b < Pow2(n)
    ensures LsbFirst(ToBits(b, n)) == b
    decreases n
  {
    if n > 0 {
      ToBitsRoundTrip(b / 2, n - 1);
      LsbFirstCons(b % 2 == 1, ToBits(b / 2, n - 1));
    }
  }

  /** The bit spaces of `bits`, one per bit. */
  function Spaces(bits: seq<bool>): (w: seq<nat>)
    ensures |w| == |bits|
    ensures forall m :: 0 <= m < |bits| ==> 0 < w[m] < BitTimeout && (w[m] > OneMin <==> bits[m])
  {
    seq(|bits|, m requires 0 <= m < |bits| => if bits[m] then SpaceOne else SpaceZero)
  }

  /** The HIGH widths of a NEC command frame: the start space, then four bytes, each least
      significant bit first. */
  function CommandFrame(b1: nat, b2: nat, b3: nat, b4: nat): (f: seq<nat>)
    ensures |f| == 33 && f[0] == SpaceStart
  {
    [SpaceStart] + Spaces(ToBits(b1, 8)) + Spaces(ToBits(b2, 8)) + Spaces(ToBits(b3, 8))
    + Spaces(ToBits(b4, 8))
  }

  /** In a command frame the start space is the first pulse and the third byte's bits follow
      the start space and the sixteen bits before them. */
  lemma CommandFrameLayout(b1: nat, b2: nat, b3: nat, b4: nat)
    ensures StartIndex(CommandFrame(b1, b2, b3, b4), 0) == 0
    ensures Bits(CommandFrame(b1, b2, b3, b4), 17) == ToBits(b3, 8)
  {
    var f := CommandFrame(b1, b2, b3, b4);
    var head := [SpaceStart] + Spaces(ToBits(b1, 8)) + Spaces(ToBits(b2, 8));
    var third := Spaces(ToBits(b3, 8));
    assert f == head + third + Spaces(ToBits(b4, 8)) && |head| == 17;
    var bits, want := Bits(f, 17), ToBits(b3, 8);
    forall m | 0 <= m < 8
      ensures bits[m] == want[m]
    {
      assert f[17 + m] == third[m];
      assert bits[m] == (Pulse(f, 17 + m, BitTimeout) > OneMin);
    }
    assert bits == want;
  }

  /** Every key 0..127 survives transmission: a command frame whose third byte holds `cmd`
      above any low bit decodes to `cmd`, whatever the other bytes. */
  lemma CommandFrameRoundTrip(b1: nat, b2: nat, cmd: nat, low: nat, b4: nat)
    requires cmd < 128 && low < 2
    ensures Key(CommandFrame(b1, b2, 2 * cmd + low, b4)) == cmd
  {
    CommandFrameLayout(b1, b2, 2 * cmd + low, b4);
    assert Pow2(8) == 256;
    ToBitsRoundTrip(2 * cmd + low, 8);
  }

  /** A repeat frame decodes to the repeat code, and silence to the error key. */
  lemma RepeatAndSilence()
    ensures Key([SpaceRepeat]) == KeyRepeat
    ensures Key([]) == KeyError
  {
    assert StartIndex([SpaceRepeat], 0) == 0;
  }

  lemma PulseShift(noise: seq<nat>, f: seq<nat>, k: nat, timeout: nat)
    requires |noise| <= k
    ensures Pulse(noise + f, k, timeout) == Pulse(f, k - |noise|, timeout)
  {
  }

  /** Past the glitches, the wait loop runs over `noise + f` as it runs over `f`. */
  lemma {:induction false} StartAfter(noise: seq<nat>, f: seq<nat>, k: nat)
    ensures StartIndex(noise + f, |noise| + k) == |noise| + StartIndex(f, k)
    decreases |f| - k
  {
    PulseShift(noise, f, |noise| + k, StartTimeout);
    var d := Pulse(f, k, StartTimeout);
    if d < StartMin && d != 0 {
      StartAfter(noise, f, k + 1);
    }
  }

  /** The wait loop passes over pulses shorter than the start space. */
  lemma {:induction false} SkipGlitches(noise: seq<nat>, f: seq<nat>, k: nat)
    requires k <= |noise|
    requires forall i :: 0 <= i < |noise| ==> 0 < noise[i] < StartMin
    ensures StartIndex(noise + f, k) == |noise| + StartIndex(f, 0)
    decreases |noise| - k
  {
    if k < |noise| {
      assert Pulse(noise + f, k, StartTimeout) == noise[k];
      SkipGlitches(noise, f, k + 1);
    } else {
      StartAfter(noise, f, 0);
    }
  }

  /** Glitches shorter than the start space in front of a frame do not change its key. */
  lemma GlitchesIgnored(noise: seq<nat>, f: seq<nat>)
    requires forall i :: 0 <= i < |noise| ==> 0 < noise[i] < StartMin
    ensures Key(noise + f) == Key(f)
  {
    SkipGlitches(noise, f, 0);
    var j := StartIndex(f, 0);
    PulseShift(noise, f, |noise| + j, StartTimeout);
    var shifted, bits := Bits(noise + f, |noise| + j + 17), Bits(f, j + 17);
    forall m | 0 <= m < 8
      ensures shifted[m] == bits[m]
    {
      PulseShift(noise, f, |noise| + j + 17 + m, BitTimeout);
    }
    assert shifted == bits;
  }

  /** One `for (int i = 0; i < 8; i++)` byte loop: `c |= mask` for every "1" pulse, with
      `mask <<= 1` after each bit. */
  method ReadByte(pulses: seq<nat>, k: nat) returns (c: nat)
    ensures c == LsbFirst(Bits(pulses, k))
    ensures c < 256
  {
    c := 0;
    var mask := 1;
    var i := 0;
    while i < 8
      invariant 0 <= i <= 8
      invariant mask == Pow2(i)
      invariant c == LsbFirst(Bits(pulses, k)[..i])
    {
      LsbFirstBound(Bits(pulses, k)[..i]);
      assert Bits(pulses, k)[..i + 1][..i] == Bits(pulses, k)[..i];
      if Pulse(pulses, k + i, BitTimeout) > OneMin {
        c := c + mask;   // mask is above every bit set so far, so `|` adds it
      }
      mask := mask * 2;
      i := i + 1;
    }
    assert Bits(pulses, k)[..8] == Bits(pulses, k);
    LsbFirstBound(Bits(pulses, k));
    assert Pow2(8) == 256;
  }

  /** The body of `getIRkey()`: the wait loop, the classification of the start space, and the
      three byte loops; `None` where the C function has no `return`. */
  method DecodeFrame(pulses: seq<nat>) returns (r: Option<int>)
    ensures r == FrameAsWritten(pulses)
  {
    var k := 0;
    var duration := Pulse(pulses, k, StartTimeout);
    k := k + 1;
    while duration < StartMin && duration != 0
      invariant 1 <= k && StartIndex(pulses, 0) == StartIndex(pulses, k - 1)
      invariant duration == Pulse(pulses, k - 1, StartTimeout)
      decreases |pulses| - k
    {
      duration := Pulse(pulses, k, StartTimeout);
      k := k + 1;
    }
    if duration == 0 {
      return Some(KeyError);
    } else if duration < RepeatMax {
      return Some(KeyRepeat);
    } else if duration < CommandMax {
      var c1 := ReadByte(pulses, k);
      var c2 := ReadByte(pulses, k + 8);
      var c3 := ReadByte(pulses, k + 16);
      c3 := c3 / 2;   // discard the least significant bit
      return Some(c3);
    }
    return None;
  }

  /** `getIRkey()` with the missing return read as the error code. */
  method GetIRKey(pulses: seq<nat>) returns (key: int)
    ensures key == Key(pulses)
    ensures key == KeyError || 0 <= key <= 127
  {
    var r := DecodeFrame(pulses);
    key := if r.Some? then r.value else KeyError;
  }
}

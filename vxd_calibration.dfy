/** The calibration record of one VxD volume step and its fixed EEPROM layout.
    Bytes 0-5 are the header (volume, input, output, markers 33 and 44, VOL_MAX_STEP); the
    left channel's records follow from byte 6, the right channel's after them, six bytes each. */
module VxdCalibration {
  import opened Common

  const VolMaxStep := 25
  /** Steps 0 (mute), 1 (minimum) and VOL_MAX_STEP (full) need no record. */
  const SampleCount := VolMaxStep - 2
  const SampleSize := 6
  const OffsetL := 6
  const OffsetR := OffsetL + SampleSize * SampleCount
  const MarkerA := 33
  const MarkerB := 44

  /** `LDRsample`: PWM value and expected current of the series and shunt LDRs. Bit 15 of `iSH`
      marks the shunt LDR's LOW range. */
  datatype LdrSample = LdrSample(pwSE: byte, iSE: word, pwSH: byte, iSH: word)

  /** The six bytes of a record in memory: the byte fields, and the words little-endian. */
  function SampleBytes(x: LdrSample): (b: seq<byte>)
    ensures |b| == SampleSize
  {
    [x.pwSE, x.iSE % 256, x.iSE / 256, x.pwSH, x.iSH % 256, x.iSH / 256]
  }

  /** The record six bytes of memory hold. */
  function SampleOfBytes(b: seq<byte>): LdrSample
    requires |b| == SampleSize
  {
    LdrSample(b[0], b[1] as int + 256 * b[2] as int, b[3], b[4] as int + 256 * b[5] as int)
  }

  /** Every record survives its byte image. */
  lemma SampleRoundTrip(x: LdrSample)
    ensures SampleOfBytes(SampleBytes(x)) == x
  {
  }

  /** Every six bytes are the image of the record they hold, so no byte is lost either way. */
  lemma BytesRoundTrip(b: seq<byte>)
    requires |b| == SampleSize
    ensures SampleBytes(SampleOfBytes(b)) == b
  {
  }

  /** EEPROM address of byte `i` of record `s` in the block that starts at `offset`. */
  function Addr(offset: nat, s: nat, i: nat): nat {
    offset + SampleSize * s + i
  }

  /** The two blocks sit after the header, do not overlap, and fit the EEPROM; within a block
      distinct (record, byte) pairs have distinct addresses. */
  lemma LayoutDisjoint(s: nat, i: nat, t: nat, j: nat)
    requires s < SampleCount && i < SampleSize && t < SampleCount && j < SampleSize
    ensures 6 <= Addr(OffsetL, s, i) < OffsetR <= Addr(OffsetR, t, j) < EepromSize
    ensures (s, i) != (t, j) ==> Addr(OffsetL, s, i) != Addr(OffsetL, t, j)
    ensures (s, i) != (t, j) ==> Addr(OffsetR, s, i) != Addr(OffsetR, t, j)
  {
  }

  /** `image` holds `table` in the block at `offset`. */
  ghost predicate HoldsBlock(image: seq<byte>, offset: nat, table: seq<LdrSample>)
    requires |table| == SampleCount && offset + SampleSize * SampleCount <= |image|
  {
    forall s, i :: 0 <= s < SampleCount && 0 <= i < SampleSize ==>
      image[Addr(offset, s, i)] == SampleBytes(table[s])[i]
  }

  /** The table `loadCalibration` reads from the block at `offset`. */
  function LoadedTable(image: seq<byte>, offset: nat): (t: seq<LdrSample>)
    requires offset + SampleSize * SampleCount <= |image|
    ensures |t| == SampleCount
  {
    seq(SampleCount, s requires 0 <= s < SampleCount =>
      SampleOfBytes(image[Addr(offset, s, 0)..Addr(offset, s, SampleSize)]))
  }

  /** Whatever layout a block was written with, reading it back gives the same table. */
  lemma LoadHeldBlock(image: seq<byte>, offset: nat, table: seq<LdrSample>)
    requires |table| == SampleCount && offset + SampleSize * SampleCount <= |image|
    requires HoldsBlock(image, offset, table)
    ensures LoadedTable(image, offset) == table
  {
    forall s | 0 <= s < SampleCount
      ensures LoadedTable(image, offset)[s] == table[s]
    {
      var bytes := image[Addr(offset, s, 0)..Addr(offset, s, SampleSize)];
      forall i | 0 <= i < SampleSize
        ensures bytes[i] == SampleBytes(table[s])[i]
      {
        assert bytes[i] == image[Addr(offset, s, i)];
      }
      assert bytes == SampleBytes(table[s]);
      SampleRoundTrip(table[s]);
    }
  }

  /** The header markers that `loadCalibration` requires before it reads anything. */
  predicate HasMarkers(image: seq<byte>)
    requires 6 <= |image|
  {
    image[3] == MarkerA && image[4] == MarkerB && image[5] == VolMaxStep
  }
}

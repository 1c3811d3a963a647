/** The two step-function tables of the VxD LDR firmware: the settling delay after an LDR
    current change, and the expected change of a current sample per PWM step. */
module VxdTables {
  import opened Common

  /** `getDelayHi(i)`: milliseconds to wait for an LDR to settle at current sample `i`. */
  function GetDelayHi(i: word): (d: byte)
    ensures d in {100, 70, 60, 50, 40, 30, 25, 20, 15, 10, 8, 5}
    ensures i < 136 <==> d == 100
    ensures i >= 2500 <==> d == 5
  {
    if i < 136 then 100
    else if i < 240 then 70
    else if i < 290 then 60
    else if i < 340 then 50
    else if i < 390 then 40
    else if i < 590 then 30
    else if i < 700 then 25
    else if i < 900 then 20
    else if i < 1300 then 15
    else if i < 2100 then 10
    else if i < 2500 then 8
    else 5
  }

  /** A larger current never needs a longer delay. */
  lemma DelayHiNonIncreasing(i: word, j: word)
    requires i <= j
    ensures GetDelayHi(j) <= GetDelayHi(i)
  {
  }

  /** Bit 15 of a stored current sample: set when the shunt LDR runs in its LOW range. */
  predicate LowRange(sample: word) {
    sample >= 32768
  }

  /** `sample & 32767`: the current without the range bit. */
  function Magnitude(sample: word): (m: word)
    ensures m < 32768
    ensures m == if LowRange(sample) then sample - 32768 else sample
  {
    sample % 32768
  }

  /** `getDeltaI(sample)`: the expected change of the sample when the PWM value moves by one;
      the table is chosen by the range bit. */
  function GetDeltaI(sample: word): (d: byte)
    ensures 3 <= d <= 11
    ensures !LowRange(sample) ==> 5 <= d
    ensures d == 11 <==> (if LowRange(sample) then Magnitude(sample) >= 640 else Magnitude(sample) >= 500)
  {
    var s := Magnitude(sample);
    if sample < 32768 then
      if s < 42 then 5
      else if s < 57 then 6
      else if s < 100 then 7
      else if s < 150 then 8
      else if s < 210 then 9
      else if s < 500 then 10
      else 11
    else
      if s < 16 then 3
      else if s < 32 then 4
      else if s < 50 then 5
      else if s < 70 then 6
      else if s < 100 then 7
      else if s < 180 then 8
      else if s < 300 then 9
      else if s < 640 then 10
      else 11
  }

  /** Within one range, a larger current never expects a smaller change per step. */
  lemma DeltaINonDecreasing(a: word, b: word)
    requires LowRange(a) == LowRange(b) && Magnitude(a) <= Magnitude(b)
    ensures GetDeltaI(a) <= GetDeltaI(b)
  {
  }
}

/** The byte arithmetic both firmwares apply when the encoder (or an IR volume key) moves by
    `pos` clicks: the volume step with its underflow guard and clamp, the channel wrap-around,
    and the setup-menu wrap. */
module Steps {
  import opened Common

  /** `volume += encoderPos` on a byte, then `if (volume > 250) volume = 0` (a wrapped-around
      negative) and `if (volume > maxStep) volume = maxStep`. */
  function StepVolume(volume: byte, pos: int, maxStep: byte): (v: byte)
    requires maxStep <= 250
    ensures v <= maxStep
    ensures 0 <= volume + pos <= maxStep ==> v == volume + pos
    ensures maxStep < volume + pos <= 250 ==> v == maxStep
    ensures -5 <= volume + pos < 0 ==> v == 0
  {
    var wrapped := (volume + pos) % 256;
    var guarded := if wrapped > 250 then 0 else wrapped;
    if guarded > maxStep then maxStep else guarded
  }

  /** `chan += encoderPos` on a byte, then 255 (one below channel 0) wraps to the last
      channel and anything else is reduced modulo `count`. */
  function WrapChannel(chan: byte, pos: int, count: byte): (c: byte)
    requires 0 < count
    ensures c < count
    ensures 0 <= chan + pos < count ==> c == chan + pos
    ensures chan + pos == -1 ==> c == count - 1
    ensures chan + pos == count < 255 ==> c == 0
  {
    var wrapped := (chan + pos) % 256;
    ModFacts(wrapped, count);
    if wrapped == 255 then count - 1 else wrapped % count
  }

  /** The two facts about `%` by a variable modulus that WrapChannel relies on. */
  lemma ModFacts(x: int, m: int)
    requires 0 < m
    ensures 0 <= x < m ==> x % m == x
    ensures x == m ==> x % m == 0
  {
  }

  /** `selSetup += encoderPos; selSetup %= 4` on a byte. */
  function StepSetup(sel: byte, pos: int): (s: byte)
    ensures s < 4
    ensures s == (sel + pos) % 4
  {
    ByteModFour(sel + pos);
    ((sel + pos) % 256) % 4
  }

  /** Truncating to a byte keeps the residue modulo 4, since 4 divides 256. */
  lemma ByteModFour(x: int)
    ensures (x % 256) % 4 == x % 4
  {
    var q, r := x / 256, x % 256;
    assert x == 4 * (64 * q) + r;
  }

  /** Turning by one click at a time never leaves the range, and a step by one click from a
      valid volume lands on the neighbouring step or stays at an end of the range. */
  lemma VolumeSingleClick(volume: byte, pos: int, maxStep: byte)
    requires maxStep < 250 && volume <= maxStep
    requires pos == 1 || pos == -1
    ensures StepVolume(volume, pos, maxStep) ==
              if volume + pos < 0 then 0
              else if volume + pos > maxStep then maxStep
              else volume + pos
  {
  }

  /** One click from the first or last channel wraps to the other end. */
  lemma ChannelWrapsBothWays(count: byte)
    requires 0 < count < 255
    ensures WrapChannel(0, -1, count) == count - 1
    ensures WrapChannel(count - 1, 1, count) == 0
  {
  }

  /** The test `isMuted == vol || (isMuted && vol)` that both `setVolume`s use, with C's
      bool-to-int promotion: it holds exactly when the mute flag disagrees with the volume. */
  function MuteNeedsUpdate(isMuted: bool, vol: byte): (r: bool)
    ensures r <==> isMuted != (vol == 0)
  {
    (if isMuted then 1 else 0) == vol || (isMuted && vol != 0)
  }

  /** The range repair of a volume byte read from EEPROM. */
  function RepairVolume(stored: byte, maxStep: byte, default: byte): (v: byte)
    requires default <= maxStep
    ensures v <= maxStep
    ensures stored <= maxStep ==> v == stored
    ensures stored > maxStep ==> v == default
  {
    if stored > maxStep then default else stored
  }

  /** The range repair of a channel byte read from EEPROM. */
  function RepairChannel(stored: byte, count: byte): (c: byte)
    requires 0 < count
    ensures c < count
    ensures stored < count ==> c == stored
    ensures stored >= count ==> c == 0
  {
    if stored >= count then 0 else stored
  }
}

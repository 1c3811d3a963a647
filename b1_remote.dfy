/** Infrared key handling of the B1 controller: classification of decoded NEC frames into key
    codes, the repeat rule, and the input keys whose `switch` cases fall through. */
module B1Remote {
  import opened Common

  const IrVolDown := 0x0
  const IrVolUp := 0x5
  const IrMute := 0x6
  const IrInput1 := 0x7
  const IrInput2 := 0x9
  const IrInput3 := 0x8
  const IrInput4 := 0xAA
  const IrInput5 := 0xAB
  const IrInput6 := 0xAC
  const IrRepeat := 0xFFFF
  const IrUnknown := 0xAAAA

  /** Address sent by the remote that belongs to the controller. */
  const RemoteAddress := 0x7984

  /** A frame as the NEC decoder library hands it over. */
  datatype NecFrame = NecFrame(address: word, command: byte)

  /** The nine command codes the controller reacts to. */
  predicate IsKnownCommand(c: int) {
    c == IrVolDown || c == IrVolUp || c == IrMute || c == IrInput1 || c == IrInput2
    || c == IrInput3 || c == IrInput4 || c == IrInput5 || c == IrInput6
  }

  /** `getIRkey()`: `frame` is what the decoder has available, if anything. */
  function GetIRKey(frame: Option<NecFrame>): (key: int)
    ensures IsKnownCommand(key) <==>
              frame.Some? && frame.value.address == RemoteAddress && IsKnownCommand(frame.value.command)
    ensures IsKnownCommand(key) ==> key == frame.value.command
    ensures key == IrRepeat <==>
              frame.Some? && frame.value.address == 0xFFFF && frame.value.command == 0
    ensures key == IrUnknown <==> !IsKnownCommand(key) && key != IrRepeat
  {
    if frame.Some? && frame.value.address == RemoteAddress && IsKnownCommand(frame.value.command) then
      frame.value.command
    else if frame.Some? && frame.value.address == 0xFFFF && frame.value.command == 0 then
      IrRepeat
    else
      IrUnknown
  }

  /** A repeat frame repeats the previous key only when the previous key was a volume key and the
      last key arrived at most 750 ms ago; otherwise the key stands for itself. */
  function EffectiveKey(key: int, sinceLastKey: u32, previous: int): (k: int)
    ensures k == previous || k == key
    ensures k != key ==> key == IrRepeat && sinceLastKey <= 750 && (previous == IrVolUp || previous == IrVolDown)
    ensures !(key == IrRepeat && sinceLastKey <= 750 && (previous == IrVolUp || previous == IrVolDown))
            ==> k == key
    ensures (key == IrRepeat && sinceLastKey <= 750 && (previous == IrVolUp || previous == IrVolDown))
            ==> k == previous
  {
    if key == IrRepeat && sinceLastKey <= 750 && (previous == IrVolUp || previous == IrVolDown) then
      previous
    else
      key
  }

  /** The keys a run of frames stands for, each `gaps[i]` ms after the previous key, starting
      from the remembered key `previous`: the remembered key becomes each effective key in turn. */
  function EffectiveKeys(keys: seq<int>, gaps: seq<u32>, previous: int): (ks: seq<int>)
    requires |gaps| == |keys|
    ensures |ks| == |keys|
    decreases |keys|
  {
    if keys == [] then []
    else
      var k := EffectiveKey(keys[0], gaps[0], previous);
      [k] + EffectiveKeys(keys[1..], gaps[1..], k)
  }

  /** Holding a volume key: a run of repeat frames, none more than 750 ms after the one before,
      keeps stepping the volume the same way; after any other key they stay repeat codes. */
  lemma {:induction false} HeldKeyRepeats(keys: seq<int>, gaps: seq<u32>, previous: int)
    requires |gaps| == |keys|
    requires forall i :: 0 <= i < |keys| ==> keys[i] == IrRepeat
    ensures (previous == IrVolUp || previous == IrVolDown) && (forall i :: 0 <= i < |gaps| ==> gaps[i] <= 750)
            ==> forall i :: 0 <= i < |keys| ==> EffectiveKeys(keys, gaps, previous)[i] == previous
    ensures previous != IrVolUp && previous != IrVolDown
            ==> forall i :: 0 <= i < |keys| ==> EffectiveKeys(keys, gaps, previous)[i] == IrRepeat
    decreases |keys|
  {
    if keys != [] {
      HeldKeyRepeats(keys[1..], gaps[1..], EffectiveKey(keys[0], gaps[0], previous));
    }
  }

  /** Encoder clicks a key adds to `encoderPos`. */
  function KeyClicks(key: int): (d: int)
    ensures d == 1 <==> key == IrVolUp
    ensures d == -1 <==> key == IrVolDown
    ensures -1 <= d <= 1
  {
    if key == IrVolUp then 1 else if key == IrVolDown then -1 else 0
  }

  /** The channels a key selects, in order, with six inputs: cases INPUT4 and INPUT5 have no
      `break` and run into the cases after them. */
  function SelectedChannels(key: int): (cs: seq<byte>)
    ensures forall k :: 0 <= k < |cs| ==> cs[k] < 6
    ensures cs != [] <==> key in {IrInput1, IrInput2, IrInput3, IrInput4, IrInput5, IrInput6}
  {
    if key == IrInput1 then [0]
    else if key == IrInput2 then [1]
    else if key == IrInput3 then [2]
    else
      (if key == IrInput4 then [3] else [])
      + (if key == IrInput4 || key == IrInput5 then [4] else [])
      + (if key == IrInput4 || key == IrInput5 || key == IrInput6 then [5] else [])
  }

  /** INPUT4 and INPUT5 both end on the sixth input; the others on their own. */
  lemma InputKeysFallThrough()
    ensures SelectedChannels(IrInput4) == [3, 4, 5]
    ensures SelectedChannels(IrInput5) == [4, 5]
    ensures SelectedChannels(IrInput1) == [0] && SelectedChannels(IrInput2) == [1]
    ensures SelectedChannels(IrInput3) == [2] && SelectedChannels(IrInput6) == [5]
  {
  }
}

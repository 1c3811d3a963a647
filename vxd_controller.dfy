/** The VxD LDR preamplifier firmware, configured as shipped: one input, one output, 25 volume
    steps. Its globals are the fields of `VxdController`; the four PWM outputs and the range pins
    that drive the LDRs are fields too, the EEPROM an array, and `millis()` and the measured
    currents are parameters. */
module VxdController {
  import opened Common
  import opened Steps
  import opened VxdTables
  import opened VxdCalibration

  const InputCount := 1
  const OutputCount := 1
  const VolDefault := 5
  const TimeRelayLatch := 250
  const TimeDacSettle := 500
  const PinExtCalib := 0
  const PinExtR1 := 1
  const PinExtR5 := 5
  const SelInput := 0
  const SelOutput := 1

  /** STATE_RUN, STATE_IO, STATE_SETUP, STATE_CALIB, STATE_ERROR, STATE_STANDBY, STATE_OFF. */
  datatype Mode = Run | IO | SetupMenu | Calib | Error | Standby | PowerOff

  /** An `int` on the AVR: 16-bit two's complement. */
  function Int16(x: int): (r: int)
    ensures -32768 <= r < 32768
    ensures -32768 <= x < 32768 ==> r == x
  {
    (x + 32768) % 65536 - 32768
  }

  function Abs(x: int): nat {
    if x < 0 then -x else x
  }

  /** One LDR of the feedback section: `deltaSample = int(target & 32767) - sample` (an
      unsigned subtraction stored into an `int`), one PWM step towards the target, taken only
      when the error is larger than the distance left after the step and the PWM value is
      strictly inside 0..255. */
  function Nudge(pw: byte, target: word, sample: word): (r: byte)
    ensures r == pw || (0 < pw < 255 && (r == pw + 1 || r == pw - 1))
    ensures r == pw + 1 ==> Int16(Magnitude(target) - sample) > 0
    ensures r == pw - 1 ==> Int16(Magnitude(target) - sample) <= 0
    ensures Int16(Magnitude(target) - sample) != -32768 ==>
              (r != pw <==> 0 < pw < 255 && 2 * Abs(Int16(Magnitude(target) - sample)) > GetDeltaI(target))
  {
    var deltaSample := Int16(Magnitude(target) - sample);
    var deltaPW := if deltaSample > 0 then 1 else -1;
    if Int16(deltaPW * deltaSample) > Abs(deltaPW * GetDeltaI(target) - deltaSample) && 0 < pw < 255
    then pw + deltaPW
    else pw
  }

  /** The expander writes of `setVolume(vol)`: `setMute` switches the calibration relays only
      when the mute state changes. */
  function MuteOps(wasMuted: bool, vol: byte): seq<ExpanderOp> {
    if wasMuted != (vol == 0) then [DigitalWrite(PinExtCalib, vol == 0)] else []
  }

  /** The numbers `setVolume(vol)` shows: one from `setMute` when the mute state changes, and
      the step itself when it is not mute. */
  function VolumeShown(wasMuted: bool, vol: byte): seq<byte> {
    (if wasMuted != (vol == 0) then [vol] else []) + (if vol > 0 then [vol] else [])
  }

  /** The expander write of `setInput`/`setOutput` with one relay: the relay on `pin` is
      switched only once the latch time since the previous switch `since` has passed. */
  function LatchOps(now: u32, since: u32, pin: nat, closed: bool): seq<ExpanderOp> {
    if Elapsed(now, since) > TimeRelayLatch then [DigitalWrite(pin, closed)] else []
  }

  /** The value a PWM driver holds after the feedback section looked at its record: the nudged
      value when the stored one moved, otherwise what it held before. */
  function Rewritten(driver: byte, stored: byte, nudged: byte): byte {
    if nudged != stored then nudged else driver
  }

  class VxdController {
    var volume: byte
    var chanIn: byte
    var chanOut: byte
    var state: Mode
    var isMuted: bool
    var selIO: byte
    var selSetup: byte
    var encoderPos: int
    /** `LSHrange`/`RSHrange`: true for HIGH. */
    var lshRange: bool
    var rshRange: bool
    /** The range pins of the series LDRs (HIGH: pin left as an input). */
    var lseRange: bool
    var rseRange: bool
    /** The PWM values last written to the four LDR drivers. */
    var pwLSE: byte
    var pwRSE: byte
    var pwLSH: byte
    var pwRSH: byte
    var milOnAction: u32
    var milOnInput: u32
    var milOnOutput: u32
    var milOnSetLDR: u32
    /** Calls on the MCP23008 expander (calibration relays, input and output relays). */
    var expander: seq<ExpanderOp>
    /** The numbers `printTwoNumber(VOLCOL, …)` put on the display, in order. */
    var shown: seq<byte>
    const dataL: array<LdrSample>
    const dataR: array<LdrSample>
    const eeprom: Eeprom

    ghost predicate Valid()
      reads this
    {
      dataL.Length == SampleCount && dataR.Length == SampleCount && dataL != dataR
      && eeprom.cells.Length == EepromSize
      && volume <= VolMaxStep && chanIn < InputCount && chanOut < OutputCount && selSetup < 4
    }

    constructor (e: Eeprom)
      requires e.cells.Length == EepromSize
      ensures Valid() && eeprom == e && fresh(dataL) && fresh(dataR)
      ensures volume == 0 && chanIn == 0 && chanOut == 0 && state == Run && !isMuted
      ensures expander == [] && shown == []
    {
      volume, chanIn, chanOut, state, isMuted := 0, 0, 0, Run, false;
      selIO, selSetup, encoderPos := 0, 0, 0;
      lshRange, rshRange, lseRange, rseRange := false, false, false, false;
      pwLSE, pwRSE, pwLSH, pwRSH := 0, 0, 0, 0;
      milOnAction, milOnInput, milOnOutput, milOnSetLDR := 0, 0, 0, 0;
      expander, shown := [], [];
      dataL := new LdrSample[SampleCount](_ => LdrSample(0, 0, 0, 0));
      dataR := new LdrSample[SampleCount](_ => LdrSample(0, 0, 0, 0));
      eeprom := e;
    }

    /** `setMute(vol)`: the calibration relays short the output while muted. */
    method SetMute(vol: byte)
      modifies this`isMuted, this`expander, this`shown
      ensures isMuted == (vol == 0)
      ensures expander == old(expander) + [DigitalWrite(PinExtCalib, vol == 0)]
      ensures shown == old(shown) + [vol]
    {
      isMuted := vol == 0;
      expander := expander + [DigitalWrite(PinExtCalib, isMuted)];
      shown := shown + [vol];
    }

    /** The LDR drivers, their range pins and the settling clock are as they were. */
    twostate predicate LdrsUnchanged()
      reads this
    {
      lseRange == old(lseRange) && rseRange == old(rseRange)
      && lshRange == old(lshRange) && rshRange == old(rshRange)
      && pwLSE == old(pwLSE) && pwRSE == old(pwRSE) && pwLSH == old(pwLSH) && pwRSH == old(pwRSH)
      && milOnSetLDR == old(milOnSetLDR)
    }

    /** The four LDR drivers and their range pins after `setVolume(vol)`: mute leaves them
        alone; volume 1 and the top step use fixed values; the steps between take the PWM
        values of calibration record vol-2, put both series LDRs in their high range, switch
        each shunt to the range bit 15 of its stored current calls for, and restart the
        settling time of the feedback section. */
    twostate predicate LdrsDriven(vol: byte, now: u32)
      requires dataL.Length == SampleCount && dataR.Length == SampleCount && vol <= VolMaxStep
      reads this, dataL, dataR
    {
      && (vol == 0 ==> LdrsUnchanged())
      && (vol == 1 ==>
            pwLSE == 2 && pwRSE == 2 && pwLSH == 200 && pwRSH == 200
            && lseRange && rseRange && !lshRange && !rshRange)
      && (vol == VolMaxStep ==>
            pwLSE == 255 && pwRSE == 255 && pwLSH == 0 && pwRSH == 0
            && !lseRange && !rseRange && lshRange && rshRange)
      && (1 < vol < VolMaxStep ==>
            pwLSE == dataL[vol - 2].pwSE && pwRSE == dataR[vol - 2].pwSE
            && pwLSH == dataL[vol - 2].pwSH && pwRSH == dataR[vol - 2].pwSH
            && lseRange && rseRange
            && lshRange == !LowRange(dataL[vol - 2].iSH) && rshRange == !LowRange(dataR[vol - 2].iSH))
      && milOnSetLDR == (if 1 < vol < VolMaxStep then now else old(milOnSetLDR))
    }

    /** The LDR drive for a step above mute: volume 1 and the top step use fixed values, the
        steps between the calibration records at index vol-2, whose bit 15 of `iSH` selects the
        shunt range. */
    method DriveStep(vol: byte, now: u32)
      requires Valid() && 0 < vol <= VolMaxStep
      modifies this`lseRange, this`rseRange, this`lshRange, this`rshRange,
               this`pwLSE, this`pwRSE, this`pwLSH, this`pwRSH, this`milOnSetLDR
      ensures LdrsDriven(vol, now)
    {
      var i := (vol - 2) % 256;
      if vol == 1 {
        lseRange, rseRange, lshRange, rshRange := true, true, false, false;
        pwLSE, pwRSE, pwLSH, pwRSH := 2, 2, 200, 200;
      } else if vol == VolMaxStep {
        lseRange, rseRange, lshRange, rshRange := false, false, true, true;
        pwLSE, pwRSE, pwLSH, pwRSH := 255, 255, 0, 0;
      } else {
        DriveSample(i, now);
      }
    }

    /** The calibrated branch of `setLDRs`: the PWM values of record `i` of both tables, and
        each shunt's range switched to the one its stored current calls for. */
    method DriveSample(i: nat, now: u32)
      requires Valid() && i < SampleCount
      modifies this`lseRange, this`rseRange, this`lshRange, this`rshRange,
               this`pwLSE, this`pwRSE, this`pwLSH, this`pwRSH, this`milOnSetLDR
      ensures pwLSE == dataL[i].pwSE && pwRSE == dataR[i].pwSE
              && pwLSH == dataL[i].pwSH && pwRSH == dataR[i].pwSH
              && lseRange && rseRange
              && lshRange == !LowRange(dataL[i].iSH) && rshRange == !LowRange(dataR[i].iSH)
              && milOnSetLDR == now
    {
      lseRange, rseRange := true, true;
      pwLSE, pwRSE := dataL[i].pwSE, dataR[i].pwSE;
      pwLSH, pwRSH := dataL[i].pwSH, dataR[i].pwSH;
      var goLowL := LowRange(dataL[i].iSH) && lshRange;
      var goLowR := LowRange(dataR[i].iSH) && rshRange;
      var goHighL := !LowRange(dataL[i].iSH) && !lshRange;
      var goHighR := !LowRange(dataR[i].iSH) && !rshRange;
      if goLowL {
        lshRange := false;
      } else if goHighL {
        lshRange := true;
      }
      if goLowR {
        rshRange := false;
      } else if goHighR {
        rshRange := true;
      }
      milOnSetLDR := now;
    }

    /** `setVolume(vol)`: the mute flag is set iff vol == 0, and any other step drives the LDRs
        and shows the volume. */
    method SetVolume(vol: byte, now: u32)
      requires Valid() && vol <= VolMaxStep
      modifies this`isMuted, this`expander, this`shown, this`lseRange, this`rseRange,
               this`lshRange, this`rshRange, this`pwLSE, this`pwRSE, this`pwLSH, this`pwRSH,
               this`milOnSetLDR
      ensures isMuted == (vol == 0)
      ensures expander == old(expander) + MuteOps(old(isMuted), vol)
      ensures LdrsDriven(vol, now)
      ensures shown == old(shown) + VolumeShown(old(isMuted), vol)
    {
      if MuteNeedsUpdate(isMuted, vol) {
        SetMute(vol);
      }
      if vol > 0 {
        DriveStep(vol, now);
        shown := shown + [vol];
      }
    }

    /** `setInput` with one input: the input relay R1 is closed for any channel but the first. */
    method SetInput(now: u32)
      modifies this`expander, this`milOnInput
      ensures expander == old(expander) + LatchOps(now, old(milOnInput), PinExtR1, chanIn != 0)
      ensures milOnInput == if Elapsed(now, old(milOnInput)) > TimeRelayLatch then now else old(milOnInput)
    {
      if Elapsed(now, milOnInput) > TimeRelayLatch {
        expander := expander + [DigitalWrite(PinExtR1, chanIn != 0)];
        milOnInput := now;
      }
    }

    /** `setOutput` with one output: the output relay R5 is closed for any channel but the first. */
    method SetOutput(now: u32)
      modifies this`expander, this`milOnOutput
      ensures expander == old(expander) + LatchOps(now, old(milOnOutput), PinExtR5, chanOut != 0)
      ensures milOnOutput == if Elapsed(now, old(milOnOutput)) > TimeRelayLatch then now else old(milOnOutput)
    {
      if Elapsed(now, milOnOutput) > TimeRelayLatch {
        expander := expander + [DigitalWrite(PinExtR5, chanOut != 0)];
        milOnOutput := now;
      }
    }

    /** What the state dispatch of the "encoder was turned" part of `loop` does with `clicks`
        clicks: RUN steps the volume and applies it (mute relay, LDRs, display); input or output
        selection steps the channel and switches its relay once the latch time has passed; the
        setup menu moves its selection; every other state and every other field stays. */
    twostate predicate ClicksApplied(clicks: int, now: u32)
      requires dataL.Length == SampleCount && dataR.Length == SampleCount
      reads this, dataL, dataR
    {
      && state == old(state) && selIO == old(selIO)
      && volume == (if state == Run then StepVolume(old(volume), clicks, VolMaxStep) else old(volume))
      && chanIn == (if state == IO && selIO % 2 == SelInput
                    then WrapChannel(old(chanIn), clicks, InputCount) else old(chanIn))
      && chanOut == (if state == IO && selIO % 2 != SelInput
                     then WrapChannel(old(chanOut), clicks, OutputCount) else old(chanOut))
      && selSetup == (if state == SetupMenu then StepSetup(old(selSetup), clicks) else old(selSetup))
      && (state == Run ==>
            volume <= VolMaxStep && isMuted == (volume == 0)
            && expander == old(expander) + MuteOps(old(isMuted), volume)
            && shown == old(shown) + VolumeShown(old(isMuted), volume)
            && LdrsDriven(volume, now))
      && (state != Run ==> isMuted == old(isMuted) && shown == old(shown) && LdrsUnchanged())
      && (state == IO && selIO % 2 == SelInput ==>
            expander == old(expander) + LatchOps(now, old(milOnInput), PinExtR1, chanIn != 0))
      && (state == IO && selIO % 2 != SelInput ==>
            expander == old(expander) + LatchOps(now, old(milOnOutput), PinExtR5, chanOut != 0))
      && (state != Run && state != IO ==> expander == old(expander))
      && milOnInput == (if state == IO && selIO % 2 == SelInput && Elapsed(now, old(milOnInput)) > TimeRelayLatch
                        then now else old(milOnInput))
      && milOnOutput == (if state == IO && selIO % 2 != SelInput && Elapsed(now, old(milOnOutput)) > TimeRelayLatch
                         then now else old(milOnOutput))
    }

    /** The "encoder was turned" part of `loop`, with the clicks the interrupt handlers
        collected in `encoderPos`: with no clicks nothing happens. */
    method ApplyEncoder(now: u32)
      requires Valid()
      modifies this`volume, this`chanIn, this`chanOut, this`selSetup, this`encoderPos,
               this`milOnAction, this`isMuted, this`expander, this`shown, this`lseRange,
               this`rseRange, this`lshRange, this`rshRange, this`pwLSE, this`pwRSE, this`pwLSH,
               this`pwRSH, this`milOnSetLDR, this`milOnInput, this`milOnOutput
      ensures Valid() && encoderPos == 0
      ensures old(encoderPos) != 0 ==> milOnAction == now && ClicksApplied(old(encoderPos), now)
      ensures old(encoderPos) == 0 ==>
                milOnAction == old(milOnAction) && volume == old(volume) && chanIn == old(chanIn)
                && chanOut == old(chanOut) && selSetup == old(selSetup) && isMuted == old(isMuted)
                && expander == old(expander) && shown == old(shown) && LdrsUnchanged()
                && milOnInput == old(milOnInput) && milOnOutput == old(milOnOutput)
    {
      if encoderPos != 0 {
        milOnAction := now;
        ApplyClicks(now);
        encoderPos := 0;
      }
    }

    /** The state dispatch of `ApplyEncoder` for a non-zero click count. */
    method ApplyClicks(now: u32)
      requires Valid()
      modifies this`volume, this`chanIn, this`chanOut, this`selSetup, this`isMuted, this`expander,
               this`shown, this`lseRange, this`rseRange, this`lshRange, this`rshRange, this`pwLSE,
               this`pwRSE, this`pwLSH, this`pwRSH, this`milOnSetLDR, this`milOnInput, this`milOnOutput
      ensures Valid()
      ensures ClicksApplied(encoderPos, now)
    {
      if state == Run {
        TurnVolume(now);
      } else if state == IO {
        TurnChannel(now);
      } else if state == SetupMenu {
        selSetup := StepSetup(selSetup, encoderPos);
      }
    }

    /** The IO branch of `ApplyEncoder`: step the selected input or output by the clicks and
        switch its relay. */
    method TurnChannel(now: u32)
      requires Valid() && state == IO
      modifies this`chanIn, this`chanOut, this`expander, this`milOnInput, this`milOnOutput
      ensures Valid()
      ensures ClicksApplied(encoderPos, now)
    {
      if selIO % 2 == SelInput {
        chanIn := WrapChannel(chanIn, encoderPos, InputCount);
        SetInput(now);
      } else {
        chanOut := WrapChannel(chanOut, encoderPos, OutputCount);
        SetOutput(now);
      }
    }

    /** The RUN branch of `ApplyEncoder`: step the volume by the clicks and apply it. */
    method TurnVolume(now: u32)
      requires Valid()
      modifies this`volume, this`isMuted, this`expander, this`shown, this`lseRange, this`rseRange,
               this`lshRange, this`rshRange, this`pwLSE, this`pwRSE, this`pwLSH, this`pwRSH,
               this`milOnSetLDR
      ensures Valid()
      ensures volume == StepVolume(old(volume), encoderPos, VolMaxStep) && isMuted == (volume == 0)
      ensures expander == old(expander) + MuteOps(old(isMuted), volume)
      ensures shown == old(shown) + VolumeShown(old(isMuted), volume)
      ensures LdrsDriven(volume, now)
    {
      volume := StepVolume(volume, encoderPos, VolMaxStep);
      SetVolume(volume, now);
    }

    /** One LDR of the feedback part of `loop`: record `k` of `data` gets its series (or shunt)
        PWM value nudged towards its target by the measured current `sample`. */
    method NudgeRecord(data: array<LdrSample>, k: nat, shunt: bool, sample: word) returns (changed: bool, pw: byte)
      requires k < data.Length
      modifies data
      ensures var x := old(data[k]);
              var nudged := if shunt then x.(pwSH := Nudge(x.pwSH, x.iSH, sample))
                            else x.(pwSE := Nudge(x.pwSE, x.iSE, sample));
              data[..] == old(data[..])[k := nudged]
              && pw == (if shunt then nudged.pwSH else nudged.pwSE)
              && changed == (nudged != x)
    {
      var x := data[k];
      if shunt {
        pw := Nudge(x.pwSH, x.iSH, sample);
        changed := pw != x.pwSH;
        if changed {
          data[k] := x.(pwSH := pw);
        }
      } else {
        pw := Nudge(x.pwSE, x.iSE, sample);
        changed := pw != x.pwSE;
        if changed {
          data[k] := x.(pwSE := pw);
        }
      }
    }

    /** Two of the nudges of the feedback part of `loop`: the series (or shunt) values of
        record `k`, left then right. */
    method NudgePair(k: nat, shunt: bool, iL: word, iR: word)
      requires Valid() && k < SampleCount
      modifies dataL, dataR, this`pwLSE, this`pwRSE, this`pwLSH, this`pwRSH
      ensures Valid()
      ensures var l := old(dataL[k]);
              dataL[..] == old(dataL[..])[k := if shunt then l.(pwSH := Nudge(l.pwSH, l.iSH, iL))
                                                else l.(pwSE := Nudge(l.pwSE, l.iSE, iL))]
      ensures var r := old(dataR[k]);
              dataR[..] == old(dataR[..])[k := if shunt then r.(pwSH := Nudge(r.pwSH, r.iSH, iR))
                                                else r.(pwSE := Nudge(r.pwSE, r.iSE, iR))]
      ensures var l := old(dataL[k]);
              shunt ==> pwLSH == Rewritten(old(pwLSH), l.pwSH, Nudge(l.pwSH, l.iSH, iL)) && pwLSE == old(pwLSE)
      ensures var l := old(dataL[k]);
              !shunt ==> pwLSE == Rewritten(old(pwLSE), l.pwSE, Nudge(l.pwSE, l.iSE, iL)) && pwLSH == old(pwLSH)
      ensures var r := old(dataR[k]);
              shunt ==> pwRSH == Rewritten(old(pwRSH), r.pwSH, Nudge(r.pwSH, r.iSH, iR)) && pwRSE == old(pwRSE)
      ensures var r := old(dataR[k]);
              !shunt ==> pwRSE == Rewritten(old(pwRSE), r.pwSE, Nudge(r.pwSE, r.iSE, iR)) && pwRSH == old(pwRSH)
    {
      var changed, pw := NudgeRecord(dataL, k, shunt, iL);
      if shunt {
        pwLSH := if changed then pw else pwLSH;
      } else {
        pwLSE := if changed then pw else pwLSE;
      }
      changed, pw := NudgeRecord(dataR, k, shunt, iR);
      if shunt {
        pwRSH := if changed then pw else pwRSH;
      } else {
        pwRSE := if changed then pw else pwRSE;
      }
    }

    /** The PWM drivers after the four nudges of records `l` (left) and `r` (right): each one
        that moved in its record is written to its driver, the others keep what they held. */
    twostate predicate DriversNudged(l: LdrSample, r: LdrSample, iLSE: word, iRSE: word, iLSH: word, iRSH: word)
      reads this
    {
      && pwLSE == Rewritten(old(pwLSE), l.pwSE, Nudge(l.pwSE, l.iSE, iLSE))
      && pwRSE == Rewritten(old(pwRSE), r.pwSE, Nudge(r.pwSE, r.iSE, iRSE))
      && pwLSH == Rewritten(old(pwLSH), l.pwSH, Nudge(l.pwSH, l.iSH, iLSH))
      && pwRSH == Rewritten(old(pwRSH), r.pwSH, Nudge(r.pwSH, r.iSH, iRSH))
    }

    /** The four nudges of the feedback part of `loop`, on record `k` of both tables. */
    method NudgeStep(k: nat, iLSE: word, iRSE: word, iLSH: word, iRSH: word)
      requires Valid() && k < SampleCount
      modifies dataL, dataR, this`pwLSE, this`pwRSE, this`pwLSH, this`pwRSH
      ensures var l := old(dataL[k]);
              dataL[..] == old(dataL[..])[k := l.(pwSE := Nudge(l.pwSE, l.iSE, iLSE),
                                                 pwSH := Nudge(l.pwSH, l.iSH, iLSH))]
      ensures var r := old(dataR[k]);
              dataR[..] == old(dataR[..])[k := r.(pwSE := Nudge(r.pwSE, r.iSE, iRSE),
                                                 pwSH := Nudge(r.pwSH, r.iSH, iRSH))]
      ensures DriversNudged(old(dataL[k]), old(dataR[k]), iLSE, iRSE, iLSH, iRSH)
    {
      NudgePair(k, false, iLSE, iRSE);
      NudgePair(k, true, iLSH, iRSH);
    }

    /** Whether the feedback part of `loop` runs: the DAC has settled since the last LDR change,
        and RUN is on a step that has calibration records. */
    predicate FeedbackDue(now: u32)
      reads this
    {
      Elapsed(now, milOnSetLDR) > TimeDacSettle && state == Run && 1 < volume < VolMaxStep
    }

    /** The feedback part of `loop`: each LDR's stored PWM value moves one step towards its
        target current, given the four currents measured now; a moved value is also written to
        its driver. */
    method Feedback(now: u32, iLSE: word, iRSE: word, iLSH: word, iRSH: word)
      requires Valid()
      modifies dataL, dataR, this`pwLSE, this`pwRSE, this`pwLSH, this`pwRSH, this`milOnSetLDR
      ensures Valid()
      ensures !old(FeedbackDue(now)) ==>
                dataL[..] == old(dataL[..]) && dataR[..] == old(dataR[..]) && milOnSetLDR == old(milOnSetLDR)
                && pwLSE == old(pwLSE) && pwRSE == old(pwRSE) && pwLSH == old(pwLSH) && pwRSH == old(pwRSH)
      ensures old(FeedbackDue(now)) ==>
                var k := volume - 2;
                var l := old(dataL[k]);
                var r := old(dataR[k]);
                && dataL[..] == old(dataL[..])[k := l.(pwSE := Nudge(l.pwSE, l.iSE, iLSE),
                                                      pwSH := Nudge(l.pwSH, l.iSH, iLSH))]
                && dataR[..] == old(dataR[..])[k := r.(pwSE := Nudge(r.pwSE, r.iSE, iRSE),
                                                      pwSH := Nudge(r.pwSH, r.iSH, iRSH))]
                && DriversNudged(l, r, iLSE, iRSE, iLSH, iRSH)
                && milOnSetLDR == now
    {
      if Elapsed(now, milOnSetLDR) > TimeDacSettle && state == Run && volume < VolMaxStep && volume > 1 {
        NudgeStep(volume - 2, iLSE, iRSE, iLSH, iRSH);
        milOnSetLDR := now;
      }
    }

    /** `saveIOValues`: bytes 0, 1 and 2, each written only when it differs. */
    method SaveIOValues()
      requires Valid()
      modifies eeprom, eeprom.cells
      ensures eeprom.cells[..] == old(eeprom.cells[..])[0 := volume][1 := chanIn][2 := chanOut]
      ensures forall k :: |old(eeprom.writes)| <= k < |eeprom.writes| ==>
                var a := eeprom.writes[k]; a <= 2 && old(eeprom.cells[a]) != eeprom.cells[a]
    {
      if eeprom.Read(0) != volume {
        eeprom.Write(0, volume);
      }
      if eeprom.Read(1) != chanIn {
        eeprom.Write(1, chanIn);
      }
      if eeprom.Read(2) != chanOut {
        eeprom.Write(2, chanOut);
      }
    }

    /** `loadIOValues`: out-of-range bytes are replaced by the defaults. */
    method LoadIOValues()
      requires Valid()
      modifies this`volume, this`chanIn, this`chanOut
      ensures Valid()
      ensures volume == RepairVolume(eeprom.cells[0], VolMaxStep, VolDefault)
      ensures chanIn == RepairChannel(eeprom.cells[1], InputCount)
      ensures chanOut == RepairChannel(eeprom.cells[2], OutputCount)
    {
      volume := eeprom.Read(0);
      chanIn := eeprom.Read(1);
      chanOut := eeprom.Read(2);
      if volume > VolMaxStep {
        volume := VolDefault;
      }
      if chanIn >= InputCount {
        chanIn := 0;
      }
      if chanOut >= OutputCount {
        chanOut := 0;
      }
    }

    /** One half of `saveCalibration`: the bytes of every record of `data`, each written only
        when it differs, into the block at `offset`. */
    method SaveBlock(data: array<LdrSample>, offset: nat)
      requires Valid() && data.Length == SampleCount
      requires offset + SampleSize * SampleCount <= EepromSize
      modifies eeprom, eeprom.cells
      ensures HoldsBlock(eeprom.cells[..], offset, data[..])
      ensures forall a :: 0 <= a < EepromSize && !(offset <= a < offset + SampleSize * SampleCount) ==>
                eeprom.cells[a] == old(eeprom.cells[a])
      ensures forall k :: |old(eeprom.writes)| <= k < |eeprom.writes| ==>
                var a := eeprom.writes[k];
                offset <= a < offset + SampleSize * SampleCount && old(eeprom.cells[a]) != eeprom.cells[a]
    {
      var sample := 0;
      while sample < SampleCount
        invariant 0 <= sample <= SampleCount
        invariant forall s, i :: 0 <= s < sample && 0 <= i < SampleSize ==>
                    eeprom.cells[Addr(offset, s, i)] == SampleBytes(data[s])[i]
        invariant forall a :: 0 <= a < EepromSize && !(offset <= a < Addr(offset, sample, 0)) ==>
                    eeprom.cells[a] == old(eeprom.cells[a])
        invariant forall k :: |old(eeprom.writes)| <= k < |eeprom.writes| ==>
                    var a := eeprom.writes[k];
                    offset <= a < Addr(offset, sample, 0) && old(eeprom.cells[a]) != eeprom.cells[a]
        invariant |old(eeprom.writes)| <= |eeprom.writes|
        invariant eeprom.writes[..|old(eeprom.writes)|] == old(eeprom.writes)
      {
        ghost var cells, writes := eeprom.cells[..], eeprom.writes;
        SaveRecord(data, offset, sample);
        forall k | |old(eeprom.writes)| <= k < |eeprom.writes|
          ensures var a := eeprom.writes[k];
                  offset <= a < Addr(offset, sample + 1, 0) && old(eeprom.cells[a]) != eeprom.cells[a]
        {
          if k < |writes| {
            assert eeprom.writes[k] == writes[k];
          }
        }
        sample := sample + 1;
      }
    }

    /** The inner loop of `saveCalibration` for record `sample`: its bytes, each written only
        when the cell differs. */
    method SaveRecord(data: array<LdrSample>, offset: nat, sample: nat)
      requires sample < data.Length && eeprom.cells.Length == EepromSize
      requires Addr(offset, sample, SampleSize) <= EepromSize
      modifies eeprom, eeprom.cells
      ensures forall i :: 0 <= i < SampleSize ==>
                eeprom.cells[Addr(offset, sample, i)] == SampleBytes(data[sample])[i]
      ensures forall a :: 0 <= a < EepromSize && !(Addr(offset, sample, 0) <= a < Addr(offset, sample, SampleSize)) ==>
                eeprom.cells[a] == old(eeprom.cells[a])
      ensures forall k :: |old(eeprom.writes)| <= k < |eeprom.writes| ==>
                var a := eeprom.writes[k];
                Addr(offset, sample, 0) <= a < Addr(offset, sample, SampleSize)
                && old(eeprom.cells[a]) != eeprom.cells[a]
      ensures |old(eeprom.writes)| <= |eeprom.writes|
      ensures eeprom.writes[..|old(eeprom.writes)|] == old(eeprom.writes)
    {
      var p := SampleBytes(data[sample]);
      var i := 0;
      while i < SampleSize
        invariant 0 <= i <= SampleSize
        invariant forall j :: 0 <= j < i ==> eeprom.cells[Addr(offset, sample, j)] == p[j]
        invariant forall a :: 0 <= a < EepromSize && !(Addr(offset, sample, 0) <= a < Addr(offset, sample, i)) ==>
                    eeprom.cells[a] == old(eeprom.cells[a])
        invariant forall k :: |old(eeprom.writes)| <= k < |eeprom.writes| ==>
                    var a := eeprom.writes[k];
                    Addr(offset, sample, 0) <= a < Addr(offset, sample, i) && old(eeprom.cells[a]) != eeprom.cells[a]
        invariant |old(eeprom.writes)| <= |eeprom.writes|
        invariant eeprom.writes[..|old(eeprom.writes)|] == old(eeprom.writes)
      {
        var addr := Addr(offset, sample, i);
        if eeprom.Read(addr) != p[i] {
          eeprom.Write(addr, p[i]);
        }
        i := i + 1;
      }
    }

    /** `saveCalibration`: both blocks, then the three header markers, unconditionally. */
    method SaveCalibration()
      requires Valid()
      modifies eeprom, eeprom.cells
      ensures HoldsBlock(eeprom.cells[..], OffsetL, dataL[..])
      ensures HoldsBlock(eeprom.cells[..], OffsetR, dataR[..])
      ensures HasMarkers(eeprom.cells[..])
      ensures forall a :: 0 <= a < EepromSize && (a < 3 || OffsetR + SampleSize * SampleCount <= a) ==>
                eeprom.cells[a] == old(eeprom.cells[a])
    {
      SaveBlock(dataL, OffsetL);
      SaveBlock(dataR, OffsetR);
      eeprom.Write(3, MarkerA);
      eeprom.Write(4, MarkerB);
      eeprom.Write(5, VolMaxStep);
    }

    /** One half of `loadCalibration`: every record of `data` from the block at `offset`. */
    method LoadBlock(data: array<LdrSample>, offset: nat)
      requires Valid() && data.Length == SampleCount
      requires offset + SampleSize * SampleCount <= EepromSize
      modifies data
      ensures data[..] == LoadedTable(eeprom.cells[..], offset)
    {
      var sample := 0;
      while sample < SampleCount
        invariant 0 <= sample <= SampleCount
        invariant forall s :: 0 <= s < sample ==> data[s] == LoadedTable(eeprom.cells[..], offset)[s]
      {
        var p: seq<byte> := [];
        var i := 0;
        while i < SampleSize
          invariant 0 <= i <= SampleSize
          invariant p == eeprom.cells[Addr(offset, sample, 0)..Addr(offset, sample, i)]
        {
          p := p + [eeprom.Read(Addr(offset, sample, i))];
          i := i + 1;
        }
        data[sample] := SampleOfBytes(p);
        sample := sample + 1;
      }
    }

    /** `loadCalibration`: nothing is read unless the header carries the markers. */
    method LoadCalibration() returns (ok: bool)
      requires Valid()
      modifies dataL, dataR
      ensures ok == HasMarkers(eeprom.cells[..])
      ensures ok ==> dataL[..] == LoadedTable(eeprom.cells[..], OffsetL)
                     && dataR[..] == LoadedTable(eeprom.cells[..], OffsetR)
      ensures !ok ==> dataL[..] == old(dataL[..]) && dataR[..] == old(dataR[..])
    {
      if eeprom.Read(3) != MarkerA || eeprom.Read(4) != MarkerB || eeprom.Read(5) != VolMaxStep {
        return false;
      }
      LoadBlock(dataL, OffsetL);
      LoadBlock(dataR, OffsetR);
      return true;
    }

    /** Saving the calibration and loading it back finds the markers and restores both tables. */
    method SaveThenLoad() returns (ok: bool)
      requires Valid()
      modifies eeprom, eeprom.cells, dataL, dataR
      ensures ok && dataL[..] == old(dataL[..]) && dataR[..] == old(dataR[..])
    {
      SaveCalibration();
      ok := LoadCalibration();
      LoadHeldBlock(eeprom.cells[..], OffsetL, old(dataL[..]));
      LoadHeldBlock(eeprom.cells[..], OffsetR, old(dataR[..]));
    }
  }
}

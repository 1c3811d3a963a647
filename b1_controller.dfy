/** The B1 Mezmerize controller firmware, configured as shipped: six inputs, 64 volume steps,
    home-theatre pass-through disabled. The firmware's globals are the fields of `Controller`;
    `millis()` and the pin readings are parameters, the port expander and the display are logs. */
module B1Controller {
  import opened Common
  import opened Steps
  import Rotary
  import opened B1Remote

  const InputCount := 6
  const VolMaxStep := 64
  const VolDefault := 20
  /** Seconds without activity before INPUT_SELECT returns to RUN. */
  const TimeExitSelect := 2
  /** Seconds without activity before the display is switched off. */
  const TimeLcdOffAfter := 10
  const TimeIgnoreRemoteCmd := 100
  const TimeSwitchBounce := 250
  const TimeRelayLatch := 0
  /** Milliseconds after which a repeat frame no longer repeats. */
  const TimeRepeatWindow := 750
  const LcdColumns := 20
  const VolCol := 11
  const SelInput := 0
  const SelBias := 0
  const SelExit := 3

  /** Expander pins of the six input relays, `relayMap`. */
  const RelayMap: seq<int> := [1, 2, 3, 4, 5, 6]

  const InputNames: seq<string> := ["INPUT 1", "INPUT 2", "INPUT 3", "INPUT 4", "INPUT 5", "INPUT 6"]

  /** STATE_RUN, STATE_INPUT_SELECT, STATE_SETUP, STATE_ERROR, STATE_OFF. */
  datatype Mode = Run | InputSelect | SetupMenu | Error | PowerOff

  /** The display calls whose content the controller decides (menu drawing is not logged). */
  datatype DisplayCall =
    | TwoNumber(column: int, number: byte)   // printTwoNumber
    | PaddedText(text: string, width: nat)   // lcd_print
    | DisplayOn                              // lcd.lcdOn()
    | DisplayOff                             // lcd.lcdOff()

  /** The relay writes of `setInput`: relay i is driven HIGH exactly when it is the channel. */
  function RelayPattern(chan: int): (ops: seq<ExpanderOp>)
    ensures |ops| == InputCount
  {
    seq(InputCount, i requires 0 <= i < InputCount => DigitalWrite(RelayMap[i], chan == i))
  }

  /** Whatever the relays were before, after the writes of `setInput` relay i is HIGH iff
      i == chan: exactly one relay is on for a valid channel, none for any other value. */
  lemma RelayPatternOneHot(history: seq<ExpanderOp>, chan: int)
    ensures forall i :: 0 <= i < InputCount ==>
              LastWrite(history + RelayPattern(chan), RelayMap[i]) == Some(i == chan)
  {
    var ops := RelayPattern(chan);
    forall i | 0 <= i < InputCount
      ensures LastWrite(history + ops, RelayMap[i]) == Some(i == chan)
    {
      LastWriteOfDistinct(ops, i);
      LastWriteConcat(history, ops, RelayMap[i]);
    }
  }

  /** The relay writes of one `setInput` call that reads the clock `now` when the relays last
      changed at `since`: the full pattern once the latch time has passed, nothing otherwise. */
  function SwitchOps(chan: int, now: u32, since: u32): seq<ExpanderOp> {
    if Elapsed(now, since) > TimeRelayLatch then RelayPattern(chan) else []
  }

  /** The relay writes of successive `setInput` calls selecting `chans`, the i-th call reading
      the clock `clocks[i]`, when the relays last changed at `since`. */
  function SelectRelays(chans: seq<byte>, clocks: seq<u32>, since: u32): seq<ExpanderOp>
    requires |chans| <= |clocks|
    decreases |chans|
  {
    if chans == [] then []
    else
      var n := |chans| - 1;
      SelectRelays(chans[..n], clocks, since) + SwitchOps(chans[n], clocks[n], LastSwitch(chans[..n], clocks, since))
  }

  /** When the relays last changed after those calls. */
  function LastSwitch(chans: seq<byte>, clocks: seq<u32>, since: u32): u32
    requires |chans| <= |clocks|
    decreases |chans|
  {
    if chans == [] then since
    else
      var n := |chans| - 1;
      var before := LastSwitch(chans[..n], clocks, since);
      if Elapsed(clocks[n], before) > TimeRelayLatch then clocks[n] else before
  }

  /** One more call appended to a run of input selections. */
  lemma SelectionSnoc(done: seq<byte>, c: byte, clocks: seq<u32>, since: u32)
    requires |done| < |clocks|
    ensures SelectRelays(done + [c], clocks, since)
            == SelectRelays(done, clocks, since) + SwitchOps(c, clocks[|done|], LastSwitch(done, clocks, since))
    ensures LastSwitch(done + [c], clocks, since)
            == if Elapsed(clocks[|done|], LastSwitch(done, clocks, since)) > TimeRelayLatch then clocks[|done|]
               else LastSwitch(done, clocks, since)
  {
    assert (done + [c])[..|done|] == done;
  }

  /** The clock moves on by more than the latch time before each of the first `n` calls. */
  predicate ClockMovesOn(clocks: seq<u32>, since: u32, n: nat)
    requires n <= |clocks|
  {
    forall i :: 0 <= i < n ==> Elapsed(clocks[i], if i == 0 then since else clocks[i - 1]) > TimeRelayLatch
  }

  /** When the clock moves on between the calls, every call switches the relays, so they last
      changed at the last call's reading. */
  lemma {:induction false} LastSwitchFollowsClock(chans: seq<byte>, clocks: seq<u32>, since: u32)
    requires 0 < |chans| <= |clocks| && ClockMovesOn(clocks, since, |chans|)
    ensures LastSwitch(chans, clocks, since) == clocks[|chans| - 1]
    decreases |chans|
  {
    var n := |chans| - 1;
    if n > 0 {
      LastSwitchFollowsClock(chans[..n], clocks, since);
    }
  }

  /** A run of input selections whose calls are each later than the latch time leaves exactly
      the relay of the last selected channel on, whatever the relays were before. */
  lemma SelectionEndsOnLast(history: seq<ExpanderOp>, chans: seq<byte>, clocks: seq<u32>, since: u32)
    requires 0 < |chans| <= |clocks| && ClockMovesOn(clocks, since, |chans|)
    ensures forall i :: 0 <= i < InputCount ==>
              LastWrite(history + SelectRelays(chans, clocks, since), RelayMap[i]) == Some(i == chans[|chans| - 1])
  {
    var n := |chans| - 1;
    var prefix := SelectRelays(chans[..n], clocks, since);
    if n > 0 {
      LastSwitchFollowsClock(chans[..n], clocks, since);
    }
    assert SelectRelays(chans, clocks, since) == prefix + RelayPattern(chans[n]);
    assert history + SelectRelays(chans, clocks, since) == (history + prefix) + RelayPattern(chans[n]);
    RelayPatternOneHot(history + prefix, chans[n]);
  }

  /** `inputName[chan_in]` as `lcd_print` shows it; the firmware never indexes it with
      chanIn >= INPUTCOUNT. */
  function InputCall(chan: int): DisplayCall {
    PaddedText(if 0 <= chan < InputCount then InputNames[chan] else "", LcdColumns / 2 - 1)
  }

  /** What `setVolume(vol)` shows when the mute flag was `wasMuted`: the volume, and the volume
      again from `setMute` when the flag has to change. */
  function VolumeCalls(wasMuted: bool, vol: byte): seq<DisplayCall> {
    [TwoNumber(VolCol, vol)] + if wasMuted != (vol == 0) then [TwoNumber(VolCol, vol)] else []
  }

  /** `if (LCDState == OFF) setLCDOn()`: the display call that wakes a dark display. */
  function WakeCalls(lcdWasOn: bool): seq<DisplayCall> {
    if lcdWasOn then [] else [DisplayOn]
  }

  /** The display call of the IR section for a received key `raw`: a known command wakes a dark
      display, and any other key leaves it as it is. */
  function KeyWake(raw: int, lcdWasOn: bool): seq<DisplayCall> {
    if IsKnownCommand(raw) then WakeCalls(lcdWasOn) else []
  }

  /** The supply voltage in millivolts at which `loop` takes the power as failing. */
  predicate PowerFailing(vcc: int) {
    3000 < vcc < 4600
  }

  class Controller {
    var volume: byte
    var chanIn: byte
    var state: Mode
    var isMuted: bool
    var selInput: byte
    var selSetup: byte
    var btnReleased: bool
    var lcdOn: bool
    var encoderState: byte
    var encoderPos: int
    var previousIRkey: int
    var isIRrepeat: bool
    var lastInput: byte
    var prevInput: byte
    var milOnRemote: u32
    var milOnRemoteKey: u32
    var milOnButton: u32
    var milOnAction: u32
    var milOnInput: u32
    /** Calls on the MCP23008 expander that drives the relays. */
    var relays: seq<ExpanderOp>
    var display: seq<DisplayCall>
    const eeprom: Eeprom

    /** The ranges the firmware keeps its globals in. */
    ghost predicate Valid()
      reads this
    {
      eeprom.cells.Length == EepromSize
      && volume <= VolMaxStep && chanIn < InputCount && selSetup < 4
      && Rotary.ValidState(encoderState)
    }

    /** The globals as C zero-initialises them before `setup()` runs. */
    constructor (e: Eeprom)
      requires e.cells.Length == EepromSize
      ensures Valid() && eeprom == e
      ensures volume == 0 && chanIn == 0 && state == Run && !isMuted && lcdOn
      ensures encoderState == 0 && encoderPos == 0 && relays == [] && display == []
    {
      volume, chanIn, state, isMuted := 0, 0, Run, false;
      selInput, selSetup, btnReleased, lcdOn := 0, 0, false, true;
      encoderState, encoderPos, previousIRkey, isIRrepeat := 0, 0, 0, false;
      lastInput, prevInput := 0, 0;
      milOnRemote, milOnRemoteKey, milOnButton, milOnAction, milOnInput := 0, 0, 0, 0, 0;
      relays, display := [], [];
      eeprom := e;
    }

    /** `setLCDOn` */
    method SetLcdOn()
      modifies this`lcdOn, this`display
      ensures lcdOn && display == old(display) + [DisplayOn]
    {
      lcdOn := true;
      display := display + [DisplayOn];
    }

    /** `setLCDOff` */
    method SetLcdOff()
      modifies this`lcdOn, this`display
      ensures !lcdOn && display == old(display) + [DisplayOff]
    {
      lcdOn := false;
      display := display + [DisplayOff];
    }

    /** `if (LCDState == OFF) setLCDOn()` */
    method WakeDisplay()
      modifies this`lcdOn, this`display
      ensures lcdOn && display == old(display) + WakeCalls(old(lcdOn))
    {
      if !lcdOn {
        SetLcdOn();
      }
    }

    /** `setMute(vol)` */
    method SetMute(vol: byte)
      modifies this`isMuted, this`display
      ensures isMuted == (vol == 0)
      ensures display == old(display) + [TwoNumber(VolCol, vol)]
    {
      isMuted := vol == 0;
      display := display + [TwoNumber(VolCol, vol)];
    }

    /** `setVolume(vol)`: shows the volume, and calls `setMute` exactly when the mute flag
        disagrees with it, so that afterwards the flag is set iff the volume is 0. */
    method SetVolume(vol: byte)
      modifies this`isMuted, this`display
      ensures isMuted == (vol == 0)
      ensures display == old(display) + VolumeCalls(old(isMuted), vol)
    {
      display := display + [TwoNumber(VolCol, vol)];
      if MuteNeedsUpdate(isMuted, vol) {
        SetMute(vol);
      }
    }

    /** `toggleMute`: unmuting restores the current volume, muting shows 0. */
    method ToggleMute()
      modifies this`isMuted, this`display
      ensures old(isMuted) ==> isMuted == (volume == 0)
      ensures !old(isMuted) ==> isMuted
      ensures volume > 0 ==> isMuted == !old(isMuted)
      ensures display == old(display) + if old(isMuted) then VolumeCalls(true, volume) else [TwoNumber(VolCol, 0)]
    {
      if isMuted {
        SetVolume(volume);
      } else {
        SetMute(0);
      }
    }

    /** `setInput` (also lib/InputController): once the latch time has passed since the last
        relay change, shows the input name and drives relay i HIGH iff i == chanIn. */
    method SetInput(now: u32)
      modifies this`relays, this`display, this`milOnInput
      ensures relays == old(relays) + SwitchOps(chanIn, now, old(milOnInput))
      ensures var fired := Elapsed(now, old(milOnInput)) > TimeRelayLatch;
              && milOnInput == (if fired then now else old(milOnInput))
              && display == old(display) + (if fired then [InputCall(chanIn)] else [])
    {
      var wasMuted := isMuted;
      if Elapsed(now, milOnInput) > TimeRelayLatch {
        display := display + [InputCall(chanIn)];
        var i := 0;
        while i < InputCount
          invariant 0 <= i <= InputCount
          invariant relays == old(relays) + RelayPattern(chanIn)[..i]
          invariant display == old(display) + [InputCall(chanIn)]
        {
          relays := relays + [DigitalWrite(RelayMap[i], chanIn == i)];
          i := i + 1;
        }
        milOnInput := now;
      }
      if isMuted && !wasMuted {
        // the volume is re-applied here only if the mute flag changed above, which it cannot
        assert false;
      }
    }

    /** `toIOState` */
    method ToIOState()
      modifies this`state, this`selInput
      ensures state == InputSelect
      ensures selInput == if old(state) != InputSelect then SelInput else old(selInput)
    {
      if state != InputSelect {
        selInput := SelInput;
      }
      state := InputSelect;
    }

    /** `toSetupState`: the menu opens on its first item. */
    method ToSetupState()
      modifies this`state, this`selSetup
      ensures state == SetupMenu && selSetup == SelBias
    {
      selSetup := SelBias;
      state := SetupMenu;
    }

    /** `toRunState`: redraws the volume unless coming from INPUT_SELECT, and restarts the
        inactivity timer. */
    method ToRunState(now: u32)
      modifies this`state, this`milOnAction, this`isMuted, this`display
      ensures state == Run && milOnAction == now
      ensures old(state) != InputSelect ==>
                isMuted == (volume == 0) && display == old(display) + VolumeCalls(old(isMuted), volume)
      ensures old(state) == InputSelect ==> isMuted == old(isMuted) && display == old(display)
    {
      if state != InputSelect {
        SetVolume(volume);
      }
      milOnAction := now;
      state := Run;
    }

    /** `storeLast`: remembers the input before the current one. */
    method StoreLast()
      modifies this`lastInput, this`prevInput
      ensures lastInput == chanIn
      ensures chanIn != old(lastInput) ==> prevInput == old(lastInput)
      ensures chanIn == old(lastInput) ==> prevInput == old(prevInput)
    {
      if chanIn != lastInput {
        prevInput := lastInput;
        lastInput := chanIn;
      }
    }

    /** `saveValuesToEeprom`: byte 0 holds the volume and byte 1 the input; a byte that already
        holds its value is not written again. */
    method SaveValuesToEeprom()
      requires eeprom.cells.Length == EepromSize
      modifies eeprom, eeprom.cells
      ensures eeprom.cells[..] == old(eeprom.cells[..])[0 := volume][1 := chanIn]
      ensures eeprom.writes == old(eeprom.writes)
                               + (if old(eeprom.cells[0]) != volume then [0] else [])
                               + (if old(eeprom.cells[1]) != chanIn then [1] else [])
    {
      if eeprom.Read(0) != volume {
        eeprom.Write(0, volume);
      }
      if eeprom.Read(1) != chanIn {
        eeprom.Write(1, chanIn);
      }
    }

    /** `loadValuesFromEeprom`: out-of-range bytes are replaced by the defaults. */
    method LoadValuesFromEeprom()
      requires eeprom.cells.Length == EepromSize
      modifies this`volume, this`chanIn
      ensures volume == RepairVolume(eeprom.cells[0], VolMaxStep, VolDefault) && chanIn == RepairChannel(eeprom.cells[1], InputCount)
    {
      volume := eeprom.Read(0);
      chanIn := eeprom.Read(1);
      if volume > VolMaxStep {
        volume := VolDefault;
      }
      if chanIn >= InputCount {
        chanIn := 0;
      }
    }

    /** The part of `setup()` after the saved values are loaded: the input relays and the
        screen are set for the loaded values, and RUN is entered. */
    method ShowStart(now: u32)
      requires Valid()
      modifies this`state, this`relays, this`display, this`milOnInput, this`isMuted, this`milOnAction
      ensures Valid() && state == Run && isMuted == (volume == 0) && milOnAction == now
      ensures relays == old(relays) + SwitchOps(chanIn, now, old(milOnInput))
      ensures var fired := Elapsed(now, old(milOnInput)) > TimeRelayLatch;
              && milOnInput == (if fired then now else old(milOnInput))
              && display == old(display) + (if fired then [InputCall(chanIn)] else [])
                            + [TwoNumber(VolCol, volume), TwoNumber(VolCol, volume)]
    {
      state := InputSelect;
      SetInput(now);
      isMuted := volume == 0;
      SetVolume(volume);
      SetMute(volume);
      ToRunState(now);
    }

    /** `setup()` from the point the saved values are loaded; the welcome screen is not logged. */
    method Setup(now: u32)
      requires Valid()
      modifies this`volume, this`chanIn, this`state, this`relays, this`display, this`milOnInput,
               this`isMuted, this`milOnAction, this`btnReleased, this`encoderPos
      ensures Valid() && state == Run && btnReleased && encoderPos == 0
      ensures volume == RepairVolume(eeprom.cells[0], VolMaxStep, VolDefault) && chanIn == RepairChannel(eeprom.cells[1], InputCount)
      ensures isMuted == (volume == 0) && milOnAction == now
      ensures relays == old(relays) + SwitchOps(chanIn, now, old(milOnInput))
      ensures var fired := Elapsed(now, old(milOnInput)) > TimeRelayLatch;
              && milOnInput == (if fired then now else old(milOnInput))
              && display == old(display) + (if fired then [InputCall(chanIn)] else [])
                            + [TwoNumber(VolCol, volume), TwoNumber(VolCol, volume)]
    {
      LoadValuesFromEeprom();
      ShowStart(now);
      milOnAction := now;
      btnReleased := true;
      encoderPos := 0;
    }

    /** The rotary part of `loop`: `rotary_process()`, then DIR_CCW counts up and DIR_CW down. */
    method ReadEncoder(enc1: bool, enc2: bool)
      requires Rotary.ValidState(encoderState)
      modifies this`encoderState, this`encoderPos
      ensures (encoderState, Rotary.Direction(encoderState))
              == Rotary.Process(old(encoderState), Rotary.PinState(enc1, enc2))
      ensures encoderPos == old(encoderPos) + if Rotary.Direction(encoderState) == Rotary.DirCcw then 1
                           else if Rotary.Direction(encoderState) == Rotary.DirCw then -1 else 0
    {
      var result;
      encoderState, result := Rotary.Process(encoderState, Rotary.PinState(enc1, enc2)).0,
                              Rotary.Process(encoderState, Rotary.PinState(enc1, enc2)).1;
      if result != 0 {
        if result == Rotary.DirCcw {
          encoderPos := encoderPos + 1;
        } else {
          encoderPos := encoderPos - 1;
        }
      }
    }

    /** The "encoder was turned" part of `loop`: the clicks collected in `encoderPos` move the
        volume in RUN, the input in INPUT_SELECT and the menu cursor in SETUP. */
    method ApplyEncoder(now: u32)
      requires Valid()
      modifies this`volume, this`chanIn, this`selSetup, this`encoderPos, this`milOnAction,
               this`lcdOn, this`display, this`isMuted, this`relays, this`milOnInput
      ensures Valid() && encoderPos == 0
      ensures old(encoderPos) == 0 ==>
                && milOnAction == old(milOnAction) && lcdOn == old(lcdOn) && volume == old(volume)
                && chanIn == old(chanIn) && selSetup == old(selSetup) && isMuted == old(isMuted)
                && display == old(display) && relays == old(relays) && milOnInput == old(milOnInput)
      ensures old(encoderPos) != 0 ==> milOnAction == now && lcdOn
      ensures old(encoderPos) != 0 && state == Run ==>
                && volume == StepVolume(old(volume), old(encoderPos), VolMaxStep) && isMuted == (volume == 0)
                && display == old(display) + WakeCalls(old(lcdOn)) + VolumeCalls(old(isMuted), volume)
                && chanIn == old(chanIn) && relays == old(relays) && milOnInput == old(milOnInput)
      ensures old(encoderPos) != 0 && state == InputSelect && selInput % 2 == SelInput ==>
                var fired := Elapsed(now, old(milOnInput)) > TimeRelayLatch;
                && chanIn == WrapChannel(old(chanIn), old(encoderPos), InputCount) && isMuted == (volume == 0)
                && relays == old(relays) + SwitchOps(chanIn, now, old(milOnInput))
                && milOnInput == (if fired then now else old(milOnInput))
                && display == old(display) + WakeCalls(old(lcdOn)) + (if fired then [InputCall(chanIn)] else [])
                              + VolumeCalls(old(isMuted), volume)
                && volume == old(volume)
      ensures old(encoderPos) != 0 && state == SetupMenu ==> selSetup == StepSetup(old(selSetup), old(encoderPos))
      ensures old(encoderPos) != 0 && !(state == Run || (state == InputSelect && selInput % 2 == SelInput)) ==>
                && volume == old(volume) && chanIn == old(chanIn) && isMuted == old(isMuted)
                && display == old(display) + WakeCalls(old(lcdOn)) && relays == old(relays)
                && milOnInput == old(milOnInput)
      ensures state != SetupMenu ==> selSetup == old(selSetup)
    {
      if encoderPos != 0 {
        milOnAction := now;
        WakeDisplay();
        ApplyClicks(now);
        encoderPos := 0;
      }
    }

    /** The state dispatch of `ApplyEncoder` for a non-zero click count. */
    method ApplyClicks(now: u32)
      requires Valid()
      modifies this`volume, this`chanIn, this`selSetup, this`display, this`isMuted, this`relays,
               this`milOnInput
      ensures Valid()
      ensures state == Run ==>
                && volume == StepVolume(old(volume), encoderPos, VolMaxStep) && isMuted == (volume == 0)
                && display == old(display) + VolumeCalls(old(isMuted), volume)
                && chanIn == old(chanIn) && relays == old(relays) && milOnInput == old(milOnInput)
                && selSetup == old(selSetup)
      ensures state == InputSelect && selInput % 2 == SelInput ==>
                var fired := Elapsed(now, old(milOnInput)) > TimeRelayLatch;
                && chanIn == WrapChannel(old(chanIn), encoderPos, InputCount) && isMuted == (volume == 0)
                && relays == old(relays) + SwitchOps(chanIn, now, old(milOnInput))
                && milOnInput == (if fired then now else old(milOnInput))
                && display == old(display) + (if fired then [InputCall(chanIn)] else []) + VolumeCalls(old(isMuted), volume)
                && volume == old(volume) && selSetup == old(selSetup)
      ensures state == SetupMenu ==> selSetup == StepSetup(old(selSetup), encoderPos)
      ensures !(state == Run || (state == InputSelect && selInput % 2 == SelInput)) ==>
                && volume == old(volume) && chanIn == old(chanIn) && isMuted == old(isMuted)
                && display == old(display) && relays == old(relays) && milOnInput == old(milOnInput)
      ensures state != SetupMenu ==> selSetup == old(selSetup)
    {
      if state == Run {
        TurnVolume();
      } else if state == InputSelect {
        if selInput % 2 == SelInput {
          SelectInput(WrapChannel(chanIn, encoderPos, InputCount), now);
        }
      } else if state == SetupMenu {
        selSetup := StepSetup(selSetup, encoderPos);
      }
    }

    /** The RUN branch of the encoder dispatch: step the volume by the clicks and apply it. */
    method TurnVolume()
      requires Valid()
      modifies this`volume, this`isMuted, this`display
      ensures Valid()
      ensures volume == StepVolume(old(volume), encoderPos, VolMaxStep) && isMuted == (volume == 0)
      ensures display == old(display) + VolumeCalls(old(isMuted), volume)
    {
      volume := StepVolume(volume, encoderPos, VolMaxStep);
      SetVolume(volume);
    }

    /** One `case cIR_INPUTn` body: select the channel and re-apply the volume. */
    method SelectInput(chan: byte, now: u32)
      requires chan < InputCount
      modifies this`chanIn, this`relays, this`display, this`milOnInput, this`isMuted
      ensures chanIn == chan && isMuted == (volume == 0)
      ensures relays == old(relays) + SwitchOps(chan, now, old(milOnInput))
      ensures var fired := Elapsed(now, old(milOnInput)) > TimeRelayLatch;
              && milOnInput == (if fired then now else old(milOnInput))
              && display == old(display) + (if fired then [InputCall(chan)] else []) + VolumeCalls(old(isMuted), volume)
    {
      chanIn := chan;
      SetInput(now);
      SetVolume(volume);
    }

    /** The `switch (IRkey)` of `loop`. Each `setInput` call reads the clock itself: `clocks`
        holds the readings of the (at most three) calls of a run of input cases. */
    method DispatchKey(key: int, clocks: seq<u32>)
      requires Valid() && |clocks| == 3
      modifies this`encoderPos, this`chanIn, this`relays, this`display, this`milOnInput, this`isMuted
      ensures Valid()
      ensures encoderPos == old(encoderPos) + KeyClicks(key)
      ensures chanIn == if SelectedChannels(key) == [] then old(chanIn)
                        else SelectedChannels(key)[|SelectedChannels(key)| - 1]
      ensures key == IrMute && volume > 0 ==> isMuted == !old(isMuted)
      ensures key == IrMute && volume == 0 ==> isMuted
      ensures SelectedChannels(key) != [] ==> isMuted == (volume == 0)
      ensures key != IrMute && SelectedChannels(key) == [] ==> isMuted == old(isMuted) && display == old(display)
      ensures key == IrMute ==>
                display == old(display) + if old(isMuted) then VolumeCalls(true, volume) else [TwoNumber(VolCol, 0)]
      ensures relays == old(relays) + SelectRelays(SelectedChannels(key), clocks, old(milOnInput))
      ensures milOnInput == LastSwitch(SelectedChannels(key), clocks, old(milOnInput))
    {
      if key == IrVolUp {
        encoderPos := encoderPos + 1;
      } else if key == IrVolDown {
        encoderPos := encoderPos - 1;
      } else if SelectedChannels(key) != [] {
        InputCases(key, clocks);
      } else if key == IrMute {
        ToggleMute();
      }
    }

    /** The `case cIR_INPUTn` bodies of the `switch (IRkey)`. */
    method InputCases(key: int, clocks: seq<u32>)
      requires Valid() && |clocks| == 3 && SelectedChannels(key) != []
      modifies this`chanIn, this`relays, this`display, this`milOnInput, this`isMuted
      ensures Valid()
      ensures chanIn == SelectedChannels(key)[|SelectedChannels(key)| - 1] && isMuted == (volume == 0)
      ensures relays == old(relays) + SelectRelays(SelectedChannels(key), clocks, old(milOnInput))
      ensures milOnInput == LastSwitch(SelectedChannels(key), clocks, old(milOnInput))
    {
      ghost var start, since := relays, milOnInput;
      if key == IrInput1 {
        SelectNext(start, since, [], 0, clocks, 0);
        assert SelectedChannels(key) == [] + [0];
      } else if key == IrInput2 {
        SelectNext(start, since, [], 1, clocks, 0);
        assert SelectedChannels(key) == [] + [1];
      } else if key == IrInput3 {
        SelectNext(start, since, [], 2, clocks, 0);
        assert SelectedChannels(key) == [] + [2];
      } else {
        FallThroughCases(key, clocks);
      }
    }

    /** Cases INPUT4, INPUT5 and INPUT6: the first two end without `break`, so each runs on into
        the cases after it, and each `setInput` call reads the next clock. */
    method FallThroughCases(key: int, clocks: seq<u32>)
      requires Valid() && |clocks| == 3 && (key == IrInput4 || key == IrInput5 || key == IrInput6)
      modifies this`chanIn, this`relays, this`display, this`milOnInput, this`isMuted
      ensures Valid()
      ensures chanIn == 5 && isMuted == (volume == 0)
      ensures relays == old(relays) + SelectRelays(SelectedChannels(key), clocks, old(milOnInput))
      ensures milOnInput == LastSwitch(SelectedChannels(key), clocks, old(milOnInput))
    {
      ghost var start, since := relays, milOnInput;
      var t := 0;
      ghost var done: seq<byte> := [];
      if key == IrInput4 {
        SelectNext(start, since, done, 3, clocks, t);
        done, t := done + [3], t + 1;
      }
      if key == IrInput4 || key == IrInput5 {
        SelectNext(start, since, done, 4, clocks, t);
        done, t := done + [4], t + 1;
      }
      SelectNext(start, since, done, 5, clocks, t);
      done := done + [5];
      assert done == SelectedChannels(key);
    }

    /** One `setInput` call of a run of input cases that has selected `done` so far, reading the
        clock `clocks[t]`. */
    method SelectNext(ghost start: seq<ExpanderOp>, ghost since: u32, ghost done: seq<byte>, chan: byte,
                      clocks: seq<u32>, t: nat)
      requires t == |done| < |clocks| && chan < InputCount
      requires relays == start + SelectRelays(done, clocks, since) && milOnInput == LastSwitch(done, clocks, since)
      modifies this`chanIn, this`relays, this`display, this`milOnInput, this`isMuted
      ensures relays == start + SelectRelays(done + [chan], clocks, since)
      ensures milOnInput == LastSwitch(done + [chan], clocks, since)
      ensures chanIn == chan && isMuted == (volume == 0)
    {
      SelectInput(chan, clocks[t]);
      SelectionSnoc(done, chan, clocks, since);
    }

    /** The first half of taking an IR key: the action time, the repeat flag, the display
        woken for a known command, and the repeat rule picking the effective key. */
    method ResolveKey(raw: int, now: u32) returns (key: int)
      requires Valid()
      modifies this`display, this`lcdOn, this`milOnAction, this`isIRrepeat, this`previousIRkey,
               this`milOnRemoteKey
      ensures Valid()
      ensures key == EffectiveKey(raw, Elapsed(now, old(milOnRemoteKey)), old(previousIRkey))
      ensures previousIRkey == key && milOnAction == now && milOnRemoteKey == now
      ensures lcdOn == (old(lcdOn) || IsKnownCommand(raw))
      ensures display == old(display) + KeyWake(raw, old(lcdOn))
      ensures isIRrepeat == (raw == IrRepeat && Elapsed(now, old(milOnRemoteKey)) <= TimeRepeatWindow)
    {
      key := raw;
      milOnAction := now;
      isIRrepeat := key == IrRepeat;
      if Elapsed(now, milOnRemoteKey) > TimeRepeatWindow {
        isIRrepeat := false;
      }
      if IsKnownCommand(key) {
        if !lcdOn {
          SetLcdOn();
        }
      }
      if isIRrepeat && (previousIRkey == IrVolUp || previousIRkey == IrVolDown) {
        key := previousIRkey;
      } else {
        previousIRkey := key;
      }
      milOnRemoteKey := now;
    }

    /** The body of the IR part of `loop` once a key other than cIR_UNKNOWN has arrived: the
        repeat rule picks the effective key, which is remembered and dispatched. */
    method TakeKey(raw: int, now: u32, clocks: seq<u32>) returns (key: int)
      requires Valid() && raw != IrUnknown && |clocks| == 3
      modifies this`encoderPos, this`chanIn, this`relays, this`display, this`milOnInput,
               this`isMuted, this`lcdOn, this`milOnAction, this`isIRrepeat, this`previousIRkey,
               this`milOnRemoteKey, this`milOnRemote
      ensures Valid()
      ensures key == EffectiveKey(raw, Elapsed(now, old(milOnRemoteKey)), old(previousIRkey))
      ensures milOnAction == now && milOnRemoteKey == now && previousIRkey == key
      ensures encoderPos == old(encoderPos) + KeyClicks(key)
      ensures chanIn == if SelectedChannels(key) == [] then old(chanIn)
                        else SelectedChannels(key)[|SelectedChannels(key)| - 1]
      ensures key == IrMute && volume > 0 ==> isMuted == !old(isMuted)
      ensures key == IrMute && volume == 0 ==> isMuted
      ensures SelectedChannels(key) != [] ==> isMuted == (volume == 0)
      ensures key != IrMute && SelectedChannels(key) == [] ==>
                isMuted == old(isMuted) && display == old(display) + KeyWake(raw, old(lcdOn))
      ensures key == IrMute ==>
                display == old(display) + KeyWake(raw, old(lcdOn))
                           + if old(isMuted) then VolumeCalls(true, volume) else [TwoNumber(VolCol, 0)]
      ensures relays == old(relays) + SelectRelays(SelectedChannels(key), clocks, old(milOnInput))
      ensures milOnInput == LastSwitch(SelectedChannels(key), clocks, old(milOnInput))
      ensures lcdOn == (old(lcdOn) || IsKnownCommand(raw))
      ensures isIRrepeat == (raw == IrRepeat && Elapsed(now, old(milOnRemoteKey)) <= TimeRepeatWindow)
      ensures milOnRemote == if isIRrepeat then old(milOnRemote) else now
    {
      key := ResolveKey(raw, now);
      DispatchKey(key, clocks);
      milOnRemote := if isIRrepeat then milOnRemote else now;
    }

    /** Whether the IR part of `loop` takes a key: the remote is not in its quiet time, the
        receiver pin is low, the state listens to the remote and the frame is a known one. */
    predicate RemoteTakes(now: u32, remoteLow: bool, frame: Option<NecFrame>)
      reads this
    {
      Elapsed(now, milOnRemote) > TimeIgnoreRemoteCmd && remoteLow
      && (state == Run || state == InputSelect) && GetIRKey(frame) != IrUnknown
    }

    /** The IR part of `loop`: `frame` is what the decoder has available, `remoteLow` the level
        of the receiver pin, `clocks` the readings of the `setInput` calls of an input key. */
    method HandleRemote(now: u32, remoteLow: bool, frame: Option<NecFrame>, clocks: seq<u32>)
      requires Valid() && |clocks| == 3
      modifies this`encoderPos, this`chanIn, this`relays, this`display, this`milOnInput,
               this`isMuted, this`lcdOn, this`milOnAction, this`isIRrepeat, this`previousIRkey,
               this`milOnRemoteKey, this`milOnRemote
      ensures Valid()
      ensures !old(RemoteTakes(now, remoteLow, frame)) ==>
                encoderPos == old(encoderPos) && chanIn == old(chanIn) && isMuted == old(isMuted)
                && previousIRkey == old(previousIRkey) && milOnRemote == old(milOnRemote)
                && relays == old(relays) && display == old(display) && lcdOn == old(lcdOn)
                && milOnAction == old(milOnAction) && milOnRemoteKey == old(milOnRemoteKey)
                && isIRrepeat == old(isIRrepeat) && milOnInput == old(milOnInput)
      ensures old(RemoteTakes(now, remoteLow, frame)) ==>
                var raw := GetIRKey(frame);
                var key := EffectiveKey(raw, Elapsed(now, old(milOnRemoteKey)), old(previousIRkey));
                && previousIRkey == key && milOnAction == now && milOnRemoteKey == now
                && encoderPos == old(encoderPos) + KeyClicks(key)
                && chanIn == (if SelectedChannels(key) == [] then old(chanIn)
                              else SelectedChannels(key)[|SelectedChannels(key)| - 1])
                && (key == IrMute && volume > 0 ==> isMuted == !old(isMuted))
                && (key == IrMute && volume == 0 ==> isMuted)
                && (SelectedChannels(key) != [] ==> isMuted == (volume == 0))
                && (key != IrMute && SelectedChannels(key) == [] ==>
                      isMuted == old(isMuted) && display == old(display) + KeyWake(raw, old(lcdOn)))
                && (key == IrMute ==>
                      display == old(display) + KeyWake(raw, old(lcdOn))
                                 + if old(isMuted) then VolumeCalls(true, volume) else [TwoNumber(VolCol, 0)])
                && relays == old(relays) + SelectRelays(SelectedChannels(key), clocks, old(milOnInput))
                && milOnInput == LastSwitch(SelectedChannels(key), clocks, old(milOnInput))
                && lcdOn == (old(lcdOn) || IsKnownCommand(raw))
                && isIRrepeat == (raw == IrRepeat && Elapsed(now, old(milOnRemoteKey)) <= TimeRepeatWindow)
                && milOnRemote == if isIRrepeat then old(milOnRemote) else now
    {
      if Elapsed(now, milOnRemote) > TimeIgnoreRemoteCmd && remoteLow && (state == Run || state == InputSelect) {
        var key := GetIRKey(frame);
        if key != IrUnknown {
          var effective := TakeKey(key, now, clocks);
        }
      }
    }

    /** The button part of `loop`, with `btnLow` the level of the encoder switch. */
    method HandleButton(now: u32, btnLow: bool)
      requires Valid()
      modifies this`btnReleased, this`milOnButton, this`milOnAction, this`lcdOn, this`display,
               this`state, this`selInput, this`selSetup, this`isMuted
      ensures Valid()
      ensures !(btnLow && old(btnReleased)) ==>
                state == old(state) && btnReleased == old(btnReleased) && selSetup == old(selSetup)
                && milOnAction == old(milOnAction) && milOnButton == old(milOnButton) && lcdOn == old(lcdOn)
                && display == old(display) && isMuted == old(isMuted) && selInput == old(selInput)
      ensures btnLow && old(btnReleased) ==>
                !btnReleased && milOnButton == now && milOnAction == now && lcdOn
                && state == match old(state)
                            case Run => InputSelect
                            case InputSelect => SetupMenu
                            case SetupMenu => if old(selSetup) == SelExit then Run else SetupMenu
                            case Error => Error
                            case PowerOff => PowerOff
      ensures btnLow && old(btnReleased) ==>
                selSetup == (if old(state) == InputSelect then SelBias else old(selSetup))
                && selInput == (if old(state) == Run then SelInput else old(selInput))
      ensures btnLow && old(btnReleased) ==>
                if old(state) == SetupMenu && old(selSetup) == SelExit then
                  isMuted == (volume == 0)
                  && display == old(display) + WakeCalls(old(lcdOn)) + VolumeCalls(old(isMuted), volume)
                else
                  isMuted == old(isMuted) && display == old(display) + WakeCalls(old(lcdOn))
    {
      var btnPressed := btnLow && btnReleased;
      if btnPressed {
        btnReleased := false;
        milOnButton, milOnAction := now, now;
        if !lcdOn {
          SetLcdOn();
        }
        if state == Run {
          // INPUTCOUNT > 1: the press opens input selection
          ToIOState();
        } else if state == InputSelect {
          // btnPressed holds here, so the `else` that returns to RUN is never taken
          ToSetupState();
        } else if state == SetupMenu {
          if selSetup == SelExit {
            ToRunState(now);
          }
        }
      }
    }

    /** The timing part of `loop`: input selection times out into RUN (saving first), the button
        is released after the debounce time, and the display goes dark after inactivity. */
    method HandleTimers(now: u32, btnLow: bool)
      requires Valid()
      modifies this`state, this`milOnAction, this`isMuted, this`display, this`btnReleased,
               this`lcdOn, eeprom, eeprom.cells
      ensures Valid()
      ensures old(state) == InputSelect && Elapsed(now, old(milOnAction)) > TimeExitSelect * 1000 ==>
                state == Run && eeprom.cells[..] == old(eeprom.cells[..])[0 := volume][1 := chanIn]
                && milOnAction == now
      ensures !(old(state) == InputSelect && Elapsed(now, old(milOnAction)) > TimeExitSelect * 1000) ==>
                state == old(state) && eeprom.cells[..] == old(eeprom.cells[..])
                && milOnAction == old(milOnAction)
      ensures btnReleased == (old(btnReleased) || (!btnLow && Elapsed(now, milOnButton) > TimeSwitchBounce))
      ensures isMuted == old(isMuted)
      ensures lcdOn == (old(lcdOn) && !(old(state) == Run && Elapsed(now, old(milOnAction)) > TimeLcdOffAfter * 1000))
      ensures display == old(display)
                         + if old(state) == Run && old(lcdOn) && Elapsed(now, old(milOnAction)) > TimeLcdOffAfter * 1000
                           then [DisplayOff] else []
    {
      if state == InputSelect && Elapsed(now, milOnAction) > TimeExitSelect * 1000 {
        SaveValuesToEeprom();
        ToRunState(now);
      }
      if !btnLow && Elapsed(now, milOnButton) > TimeSwitchBounce {
        btnReleased := true;
      }
      if state == Run && lcdOn && Elapsed(now, milOnAction) > TimeLcdOffAfter * 1000 {
        SetLcdOff();
      }
    }

    /** The power-off check at the top of `loop`: in RUN, a supply of `vcc` millivolts between
        3000 and 4600 means the mains is gone, so the volume and input are saved and the
        controller switches off. */
    method DetectPowerOff(vcc: int)
      requires Valid()
      modifies this`state, eeprom, eeprom.cells
      ensures Valid()
      ensures old(state) == Run && PowerFailing(vcc) ==>
                state == PowerOff && eeprom.cells[..] == old(eeprom.cells[..])[0 := volume][1 := chanIn]
      ensures !(old(state) == Run && PowerFailing(vcc)) ==>
                state == old(state) && eeprom.cells[..] == old(eeprom.cells[..])
    {
      if state == Run {
        if PowerFailing(vcc) {
          SaveValuesToEeprom();
          state := PowerOff;
        }
      }
    }

    /** One pass of `loop()`: `vcc` is the supply the power-off check measures, `now` the clock
        each section reads, `clocks` the readings of the `setInput` calls of an input key. */
    method Loop(now: u32, vcc: int, remoteLow: bool, frame: Option<NecFrame>, clocks: seq<u32>,
                enc1: bool, enc2: bool, btnLow: bool)
      requires Valid() && |clocks| == 3
      modifies this, eeprom, eeprom.cells
      ensures Valid() && encoderPos == 0
      ensures old(state) == Run && PowerFailing(vcc) ==>
                state == PowerOff && volume == old(volume) && chanIn == old(chanIn)
                && eeprom.cells[..] == old(eeprom.cells[..])[0 := volume][1 := chanIn] && relays == old(relays)
      ensures old(state) == PowerOff ==>
                state == PowerOff && volume == old(volume) && chanIn == old(chanIn)
                && relays == old(relays) && eeprom.cells[..] == old(eeprom.cells[..])
    {
      DetectPowerOff(vcc);
      LoopSections(now, remoteLow, frame, clocks, enc1, enc2, btnLow);
    }

    /** The sections of `loop()` after the supply check: remote, encoder, button and timers.
        None of them acts in the power-off state. */
    method LoopSections(now: u32, remoteLow: bool, frame: Option<NecFrame>, clocks: seq<u32>,
                        enc1: bool, enc2: bool, btnLow: bool)
      requires Valid() && |clocks| == 3
      modifies this, eeprom, eeprom.cells
      ensures Valid() && encoderPos == 0
      ensures old(state) == PowerOff ==>
                state == PowerOff && volume == old(volume) && chanIn == old(chanIn) && relays == old(relays)
                && eeprom.cells[..] == old(eeprom.cells[..])
    {
      RemoteAndEncoder(now, remoteLow, frame, clocks, enc1, enc2);
      HandleButton(now, btnLow);
      HandleTimers(now, btnLow);
    }

    /** The remote and rotary-encoder sections of `loop()`. */
    method RemoteAndEncoder(now: u32, remoteLow: bool, frame: Option<NecFrame>, clocks: seq<u32>,
                            enc1: bool, enc2: bool)
      requires Valid() && |clocks| == 3
      modifies this
      ensures Valid() && encoderPos == 0
      ensures old(state) == PowerOff ==>
                state == PowerOff && volume == old(volume) && chanIn == old(chanIn) && relays == old(relays)
    {
      HandleRemote(now, remoteLow, frame, clocks);
      ReadEncoder(enc1, enc2);
      ApplyEncoder(now);
    }
  }
}

# B1 Mezmerize / VxD preamp controller, modelled in Dafny

The repository is the firmware of two Arduino preamplifier controllers and the web page that
goes with one of them:

- the **B1 Mezmerize controller** (`src/main.cpp`): a rotary encoder, its push button and an
  NEC infrared remote set the volume and the input; six input relays sit on an MCP23008
  expander; a 20x4 OLED shows input names, a volume bar and big two-digit numbers; volume and
  input survive power cycles in EEPROM;
- the **VxD LDR volume controller** (`src/vincent.cpp`): the volume is set by driving four
  light-dependent resistors with PWM from a calibration table; a feedback loop nudges the PWM
  towards the measured calibration targets; the tables are saved to and loaded from EEPROM;
- the display drivers (`lib/LiquidCrystal_PCF8574`, `lib/OLedI2C`, `src/screen.cpp`), the
  relay library (`lib/RelayController`, `lib/InputController`) and the browser script of the
  web interface (`data/script.js`).

One Dafny module per source file, plus two shared ones:

| module | file | models |
|---|---|---|
| `Common` | common.dfy | `byte`/`word`/`u32`, unsigned-long `millis()` differences, the expander write log, the EEPROM as a class over an array |
| `Steps` | steps.dfy | the encoder arithmetic on volume, channel and setup menu shared by both firmwares |
| `Rotary` | rotary.dfy | the rotary-encoder state machine of `rotary_process` |
| `B1Remote` | b1_remote.dfy | the B1 remote keys, repeat handling and the key switch of `loop` |
| `B1Controller` | b1_controller.dfy | the B1 firmware as a class: state machine, relays, EEPROM, the four sections of `loop` |
| `NecDecoder` | nec_decoder.dfy | the VxD firmware's own pulse-width NEC decoder |
| `VxdTables` | vxd_tables.dfy | `getDelayHi` and `getDeltaI` |
| `VxdCalibration` | vxd_calibration.dfy | the EEPROM layout of the calibration tables and its byte round trip |
| `VxdController` | vxd_controller.dfy | the VxD firmware as a class: volume, relays, encoder, feedback, EEPROM save and load |
| `LcdPcf8574` | lcd_pcf8574.dfy | the HD44780-over-PCF8574 driver, down to the bytes on the I2C wire |
| `OledI2c` | oled_i2c.dfy | the SSD1311 OLED driver as a log of I2C transmissions, including the big-digit printers |
| `BigDigits` | big_digits.dfy | the glyph tables of the 4x4 and 3x3 big digits |
| `Screen` | screen.dfy | `screen.cpp`: padded text, the volume bar, two-digit numbers |
| `RelayControl` | relay_controller.dfy | `RelayController` over the MCP23008 write log |
| `WebUi` | web_ui.dfy | the page as a map of element properties and a log of sent WebSocket messages |

Conventions used throughout:

- `millis()` is the parameter `now`, read once per section of `loop`.
- Hardware outputs are append-only logs: expander writes, I2C bytes or transmissions, display
  calls, WebSocket messages. A method's contract states what it appends.
- C integer behaviour is written out where it matters: `uint8_t` truncation, `unsigned long`
  wrap-around of `millis()` differences, `int16_t` differences and `switch` fall-through.

The web page's `onMessage` is modelled as written. The `Temp1` case falls through into `Temp2`
and `default`. That behaviour is recorded under "## Findings", with a corrected per-key write
list beside it.

## Model

| member | source | states |
|---|---|---|
| `Common.Elapsed` | src/main.cpp:911 | `millis() - since` as unsigned long: the plain difference, or the difference plus 2^32 after the counter wrapped |
| `Common.LastWriteOfDistinct` | lib/InputController/InputController.cpp:29-30 | in a run of writes to distinct pins, each pin's last written level is its own write |
| `Common.Eeprom.Write` | src/main.cpp:506-509 | `EEPROM.write` stores `v` at address `a`, changes no other cell, and logs the address |
| `Steps.StepVolume` | src/main.cpp:818-822 | volume plus encoder clicks is kept in `0..maxStep`: unchanged inside, `maxStep` above, 0 for a sum of -5..-1 (a byte above 250) |
| `Steps.VolumeSingleClick` | src/main.cpp:818-822 | one click moves the volume by one and saturates at both ends |
| `Steps.WrapChannel` | src/main.cpp:832-836 | the channel stays below the count; -1 wraps to the last channel, the count wraps to 0 |
| `Steps.ChannelWrapsBothWays` | src/main.cpp:832-836 | stepping down from the first channel reaches the last one, and stepping up from the last reaches the first |
| `Steps.StepSetup` | src/main.cpp:848-849 | the setup selection moves modulo 4 |
| `Steps.MuteNeedsUpdate` | src/main.cpp:625 | the `isMuted != (vol == 0)` test holds exactly when the mute state is stale |
| `Steps.RepairVolume` | src/main.cpp:514-518 | a stored volume above the maximum becomes the default; a valid one is kept |
| `Steps.RepairChannel` | src/main.cpp:514-518 | a stored channel out of range becomes 0; a valid one is kept |
| `Rotary.PinState` | src/main.cpp:475 | the two encoder pins packed as bit 0 and bit 1 |
| `Rotary.Next` | src/main.cpp:459-464 | the table keeps the state valid and reports a direction only on entering the rest position |
| `Rotary.Process` | src/main.cpp:474-478 | `rotary_process` returns no step, one step counter-clockwise or one step clockwise |
| `Rotary.FullDetents` | src/main.cpp:459-464 | each full quadrature cycle reports exactly one step in its direction and returns to rest |
| `Rotary.HalfTurnIsSilent` | src/main.cpp:459-464 | from rest or a first position, readings that never reach the middle position 00 (bounce, half a detent and back) report nothing and keep the machine at rest or at a first position |
| `B1Remote.GetIRKey` | src/main.cpp:484-496 | a known command is returned as itself, a repeat frame as the repeat key, anything else as "unknown" |
| `B1Remote.EffectiveKey` | src/main.cpp:723-734 | the key is replaced by the previous one exactly when it is a repeat frame arriving within 750 ms of a volume key; otherwise it is taken as received |
| `B1Remote.HeldKeyRepeats` | src/main.cpp:716-734 | a held volume key (repeat frames at most 750 ms apart) keeps stepping the same way on every frame; after any other key repeat frames stay repeat codes |
| `B1Remote.KeyClicks` | src/main.cpp:739-744 | volume up and down are one encoder click each way; no other key moves the encoder |
| `B1Remote.SelectedChannels` | src/main.cpp:745-784 | the channels an input key selects, each below six, non-empty exactly for the six input keys |
| `B1Remote.InputKeysFallThrough` | src/main.cpp:764-784 | the missing `break`s make input 4 select channels 3, 4 and 5 in turn, and input 5 select 4 and 5 |
| `B1Controller.RelayPatternOneHot` | lib/InputController/InputController.cpp:29-30 | after `setInput`'s relay loop, relay i is on exactly when i is the channel, whatever the relays were before |
| `B1Controller.Controller.SetLcdOn` | src/main.cpp:185-188 | the OLED is switched on and the flag records it |
| `B1Controller.Controller.SetLcdOff` | src/main.cpp:190-193 | the OLED is switched off and the flag records it |
| `B1Controller.Controller.WakeDisplay` | src/main.cpp:812 | the display ends on, switched on only when it was off |
| `B1Controller.Controller.SetMute` | src/main.cpp:407-413 | muted exactly when the volume is 0, and the volume number is redrawn |
| `B1Controller.Controller.SetVolume` | src/main.cpp:616-627 | mute follows the volume; the number is drawn once, and once more by `setMute` when the mute state changes |
| `B1Controller.Controller.ToggleMute` | src/main.cpp:629-634 | with a non-zero volume the mute flips and the number is redrawn (0 when muting); at volume 0 it stays muted |
| `B1Controller.Controller.SetInput` | src/main.cpp:415-431 | after the latch time the relays of the input loop are written (one-hot on the channel, see `RelayPatternOneHot`), the name is printed and the latch time restarts; within it nothing changes; the trailing mute branch is unreachable |
| `B1Controller.Controller.ToIOState` | src/main.cpp:574-582 | enters input selection, resetting the selection cursor only when coming from another state |
| `B1Controller.Controller.ToSetupState` | src/main.cpp:552-564 | enters the setup menu with the first item selected |
| `B1Controller.Controller.ToRunState` | src/main.cpp:593-611 | back to run with the action time restarted; unless leaving input selection the volume is redrawn as `setVolume` draws it and mute is resynchronised, and leaving input selection changes neither mute nor the display |
| `B1Controller.Controller.StoreLast` | src/main.cpp:584-590 | the previous input becomes the last one only when the input changed |
| `B1Controller.Controller.SaveValuesToEeprom` | src/main.cpp:505-510 | cells 0 and 1 hold volume and input afterwards, every other cell is unchanged, and a cell is written only when it differs |
| `B1Controller.Controller.LoadValuesFromEeprom` | src/main.cpp:512-519 | volume and input are the repaired stored values |
| `B1Controller.Controller.Setup` | src/main.cpp:664-683 | starts in run with repaired stored values, the stored input switched in after the latch time and its name and the volume drawn, mute matching the volume |
| `B1Controller.Controller.ShowStart` | src/main.cpp:665-673 | enters run through input selection: the relays switch to the input after the latch time, its name and the volume number (twice) are drawn, mute matches the volume and the action time restarts |
| `B1Controller.Controller.ReadEncoder` | src/main.cpp:802-807 | one poll of `rotary_process` (src/main.cpp:474-478) in `loop` advances the state table and adds its step to the position |
| `B1Controller.Controller.ApplyEncoder` | src/main.cpp:809-854 | with no clicks nothing changes; otherwise the display wakes and the action time restarts; run steps and redraws the volume, input selection wraps the input, switches its relays after the latch time and redraws name and volume, setup moves the menu item; the clicks are consumed |
| `B1Controller.Controller.ApplyClicks` | src/main.cpp:815-851 | per state: run steps the volume with the byte-overflow clamp and redraws it, input selection wraps the input with its relay, name and volume writes, setup moves the menu item modulo 4, and every other state changes nothing |
| `B1Controller.Controller.TurnVolume` | src/main.cpp:815-825 | the volume is stepped with the byte-overflow clamp, mute matches it and it is redrawn as `setVolume` draws it |
| `B1Controller.Controller.SelectInput` | src/main.cpp:745-750 | an input key body sets the channel, switches its relays and prints its name after the latch time, redraws the volume, and mutes exactly when the volume is 0 |
| `B1Controller.Controller.DispatchKey` | src/main.cpp:738-788 | volume keys move the encoder by one click; input keys select their channels in fall-through order, each relay switch timed by its own `setInput` call; mute toggles at a non-zero volume and leaves the output muted at volume 0, and redraws; any other key changes nothing |
| `B1Controller.Controller.InputCases` | src/main.cpp:745-784 | an input key ends on the last channel it selects, with the relay writes of each selection in turn |
| `B1Controller.Controller.FallThroughCases` | src/main.cpp:764-784 | inputs 4, 5 and 6 run the remaining `case` bodies down to input 6 and end on the sixth input |
| `B1Controller.Controller.SelectNext` | src/main.cpp:745-784 | one more selection of a fall-through run appends its relay writes to those of the selections before it |
| `B1Controller.LastSwitchFollowsClock` | src/main.cpp:415-431 | when the clock moves on by more than the latch time before each selection, each one switches and the latch time ends at the last |
| `B1Controller.SelectionEndsOnLast` | src/main.cpp:764-784 | such a run of selections leaves exactly the relay of the last selected channel on, whatever the relays were before |
| `B1Controller.Controller.ResolveKey` | src/main.cpp:716-734 | the effective key by the repeat rule, the repeat flag, and the last-key time restarted; the display is switched on (and the call logged) exactly when a known key arrives while it is dark, and is otherwise left as it is |
| `B1Controller.Controller.TakeKey` | src/main.cpp:716-795 | a received key is resolved by the repeat rule, remembered and dispatched with `DispatchKey`'s effects: the wake call for a known key, then the mute toggle (always muted at volume 0) and its redraw for mute, and for volume and other non-input keys mute kept and nothing more drawn; the ignore time restarts unless it was a repeat |
| `B1Controller.Controller.HandleRemote` | src/main.cpp:712-796 | the remote is read only in run or input selection, with the receiver pin low and more than 100 ms since the last accepted key, and a known frame is then taken as `TakeKey` states, including its display and mute effects; otherwise nothing changes |
| `B1Controller.Controller.HandleButton` | src/main.cpp:859-905 | a debounced press wakes the display, moves run to input selection (first item selected) and input selection to setup (bias item), and leaves setup for run only on the exit item, redrawing the volume and resynchronising mute there; without a press nothing changes |
| `B1Controller.Controller.HandleTimers` | src/main.cpp:908-922 | input selection times out to run with bytes 0 and 1 saved and every other EEPROM byte kept, mute kept and nothing drawn; the button re-arms after the bounce time; in run a lit display is switched off (one logged call) after inactivity |
| `B1Controller.Controller.Loop` | src/main.cpp:689-923 | in run, a failing supply saves volume and input in bytes 0 and 1, keeps every other EEPROM byte, and switches off with the relays untouched; the off state is kept with nothing changed; the encoder clicks are consumed |
| `B1Controller.Controller.DetectPowerOff` | src/main.cpp:691-705 | in run, a supply between 3000 and 4600 mV stores volume and input in EEPROM and switches off; otherwise state and EEPROM are unchanged |
| `B1Controller.Controller.LoopSections` | src/main.cpp:709-922 | the remote, encoder, button and timer sections change nothing of volume, input, relays, state or EEPROM in the off state |
| `B1Controller.Controller.RemoteAndEncoder` | src/main.cpp:709-854 | the remote and encoder sections keep the off state, volume, input and relays, and consume the clicks |
| `NecDecoder.StartIndex` | src/vincent.cpp:1226-1229 | skips the pulses shorter than the start space and stops at the first long one or at a timeout |
| `NecDecoder.FrameAsWritten` | src/vincent.cpp:1221-1258 | `getIRkey` as written: a key in 0..127, the error key, or no result at all |
| `NecDecoder.FrameClassification` | src/vincent.cpp:1226-1258 | a timeout is the error key, a 2000-2999 µs start space the repeat code, a 3000-4999 µs one the upper seven bits of the third byte, a longer one no result |
| `NecDecoder.CommandFrameRoundTrip` | src/vincent.cpp:1236-1256 | every key 0..127 sent in the third byte of a NEC command frame decodes to itself, whatever the other bytes |
| `NecDecoder.CommandFrameLayout` | src/vincent.cpp:1226-1252 | in a NEC command frame the start space is the first pulse and the third byte is read from pulses 17..24 |
| `NecDecoder.ToBitsRoundTrip` | src/vincent.cpp:1251-1256 | the bits of a number below 2^n, read back least significant first, give the number |
| `NecDecoder.RepeatAndSilence` | src/vincent.cpp:1226-1234 | a repeat frame decodes to the repeat code and no pulses to the error key |
| `NecDecoder.GlitchesIgnored` | src/vincent.cpp:1226-1229 | pulses shorter than 2000 µs in front of a frame do not change its key |
| `NecDecoder.LongStartHasNoResult` | src/vincent.cpp:1236-1258 | a start space of 5000 µs or more falls off the end with no return value |
| `NecDecoder.Key` | src/vincent.cpp:1221-1258 | the decoder with the missing return made the error key: agrees with the as-written one wherever that returns |
| `NecDecoder.ReadByte` | src/vincent.cpp:1237-1242 | the bit loop assembles the eight pulse widths least significant bit first |
| `NecDecoder.DecodeFrame` | src/vincent.cpp:1221-1258 | the imperative decoder computes the as-written frame function |
| `NecDecoder.GetIRKey` | src/vincent.cpp:1221-1258 | the imperative decoder computes the corrected key, always the error key or 0..127 |
| `VxdTables.GetDelayHi` | src/vincent.cpp:1035-1048 | the settling delay is one of the table's values, 100 exactly below 136 and 5 exactly from 2500 |
| `VxdTables.DelayHiNonIncreasing` | src/vincent.cpp:1035-1048 | a larger current never gets a longer delay |
| `VxdTables.Magnitude` | src/vincent.cpp:1056 | `sample & 32767`: a sample with the low-range bit set loses that bit, any other is itself |
| `VxdTables.GetDeltaI` | src/vincent.cpp:1055-1077 | the expected change per step is 3..11, at least 5 when the low-range bit is clear, and 11 exactly from the top threshold of the chosen table |
| `VxdTables.DeltaINonDecreasing` | src/vincent.cpp:1055-1077 | within one range a larger current never expects a smaller change per step |
| `VxdCalibration.SampleRoundTrip` | src/vincent.cpp:1284-1290 | a sample read back from its saved bytes is the sample |
| `VxdCalibration.BytesRoundTrip` | src/vincent.cpp:1318-1324 | six stored bytes read as a sample and saved again give the same bytes |
| `VxdCalibration.LayoutDisjoint` | src/vincent.cpp:1268-1277 | the left and right tables lie after the I/O bytes and marker, inside the EEPROM, without overlap |
| `VxdCalibration.LoadHeldBlock` | src/vincent.cpp:1310-1336 | loading a block that holds a table gives that table back |
| `VxdController.Int16` | src/vincent.cpp:1973 | a difference stored in an `int16_t` wraps into -32768..32767 |
| `VxdController.Nudge` | src/vincent.cpp:1973-1979 | feedback moves a PWM by at most one, up only when the current is below its target and down only otherwise; it moves exactly when the PWM is strictly inside 0..255 and twice the error exceeds the expected change per step |
| `VxdController.VxdController.SetMute` | src/vincent.cpp:1094-1098 | muted exactly when the volume is 0, the calibration relay follows, the number is redrawn |
| `VxdController.VxdController.DriveStep` | src/vincent.cpp:1545-1574 | the LDR drivers as `LdrsDriven` states: step 1 and the top step use the fixed PWM extremes and range pins and keep the settling clock; the steps between use calibration record `vol - 2`, high series ranges, the shunt range its stored current calls for, and restart the settling clock |
| `VxdController.VxdController.DriveSample` | src/vincent.cpp:1556-1573 | the four PWMs come from record `i` of both tables, the series ranges are high, and each shunt range is high exactly when its stored current is below 32768 |
| `VxdController.VxdController.SetVolume` | src/vincent.cpp:1537-1578 | mute follows the volume; the calibration relay is written only when the mute state changes; the drivers are set as `DriveStep` states and left alone at volume 0; the number is shown for every non-zero step and once more on a mute change |
| `VxdController.VxdController.SetInput` | src/vincent.cpp:1100-1127 | after the latch time relay R1 is written, closed exactly for an input other than the first, and the latch time restarts; within it nothing changes |
| `VxdController.VxdController.SetOutput` | src/vincent.cpp:1129-1150 | after the latch time relay R5 is written, closed exactly for an output other than the first, and the latch time restarts; within it nothing changes |
| `VxdController.VxdController.ApplyEncoder` | src/vincent.cpp:1776-1831 | with no clicks nothing changes; otherwise the action time restarts and the clicks act as `ClicksApplied` states, then are consumed |
| `VxdController.VxdController.ApplyClicks` | src/vincent.cpp:1784-1828 | `ClicksApplied`: run steps the volume and applies it (mute relay, drivers, shown numbers); I/O selection wraps the input or output and writes its relay after the latch time; setup moves the menu item modulo 4; everything else stays |
| `VxdController.VxdController.TurnChannel` | src/vincent.cpp:1795-1817 | the I/O selection branch of `ClicksApplied`: the selected input or output wraps and its relay is written after the latch time |
| `VxdController.VxdController.TurnVolume` | src/vincent.cpp:1784-1791 | the volume is stepped with the byte-overflow clamp and applied: mute, calibration relay, drivers and shown numbers as `SetVolume` states |
| `VxdController.VxdController.NudgeRecord` | src/vincent.cpp:1972-1979 | one calibration record's series or shunt PWM is nudged and nothing else changes |
| `VxdController.VxdController.NudgePair` | src/vincent.cpp:1969-2008 | the series (or shunt) PWMs of one record in both tables are nudged, nothing else in the tables changes, and each driver is rewritten exactly when its stored value moved |
| `VxdController.VxdController.NudgeStep` | src/vincent.cpp:1969-2008 | the four PWMs of the current step are nudged towards their targets and each driver holds its nudged value when it moved (`DriversNudged`) |
| `VxdController.VxdController.Feedback` | src/vincent.cpp:1969-2011 | feedback runs only in run, strictly between the lowest and highest step and after its settling interval, nudging the current step's four PWMs, rewriting the drivers that moved and restarting the interval; otherwise tables, drivers and interval are unchanged |
| `VxdController.VxdController.SaveIOValues` | src/vincent.cpp:1339-1346 | cells 0..2 hold volume, input and output; every write is to one of them |
| `VxdController.VxdController.LoadIOValues` | src/vincent.cpp:1348-1358 | volume, input and output are the repaired stored values |
| `VxdController.VxdController.SaveBlock` | src/vincent.cpp:1284-1291 | the block holds the table afterwards, cells outside it are unchanged, and every write falls inside it |
| `VxdController.VxdController.SaveRecord` | src/vincent.cpp:1284-1290 | the record's six bytes land at its address, no other cell changes, and only cells that differed are written |
| `VxdController.VxdController.SaveCalibration` | src/vincent.cpp:1279-1307 | both tables and the markers are stored, and the I/O bytes and the cells past the tables are untouched |
| `VxdController.VxdController.LoadBlock` | src/vincent.cpp:1318-1324 | the table becomes the samples decoded from the block |
| `VxdController.VxdController.LoadCalibration` | src/vincent.cpp:1310-1336 | succeeds exactly when the markers are present, loading both tables; otherwise both are unchanged |
| `VxdController.VxdController.SaveThenLoad` | src/vincent.cpp:1279-1336 | saving and then loading the calibration succeeds and restores both tables |
| `LcdPcf8574.RowOffset` | lib/LiquidCrystal_PCF8574/LiquidCrystal_PCF8574.cpp:93 | DDRAM row starts 0x00, 0x40, 0x14, 0x54 |
| `LcdPcf8574.Frame` | lib/LiquidCrystal_PCF8574/LiquidCrystal_PCF8574.cpp:243-258 | an expander byte carries the nibble in the high half, RS for data, RW low, EN and the backlight bit as given |
| `LcdPcf8574.SendReassembles` | lib/LiquidCrystal_PCF8574/LiquidCrystal_PCF8574.cpp:223-238 | the four bytes of a send carry the high then the low nibble of the value, each with an enable pulse, and reassemble to it |
| `LcdPcf8574.CgramCommand` | lib/LiquidCrystal_PCF8574/LiquidCrystal_PCF8574.cpp:206 | the set-CGRAM command addresses character location `location & 7` |
| `LcdPcf8574.DataBytesAt` | lib/LiquidCrystal_PCF8574/LiquidCrystal_PCF8574.cpp:209-212 | the i-th row of a character occupies bytes 4i..4i+4 of the data sent |
| `LcdPcf8574.CursorCommand` | lib/LiquidCrystal_PCF8574/LiquidCrystal_PCF8574.cpp:91-96 | set-DDRAM command with the row's offset plus the column |
| `LcdPcf8574.CursorPositionsDistinct` | lib/LiquidCrystal_PCF8574/LiquidCrystal_PCF8574.cpp:91-96 | different cells of a 20x4 display get different commands |
| `LcdPcf8574.WithFlag` | lib/LiquidCrystal_PCF8574/LiquidCrystal_PCF8574.cpp:99-141 | setting or clearing a control flag changes that flag and no other bit |
| `LcdPcf8574.WithFlagIdempotent` | lib/LiquidCrystal_PCF8574/LiquidCrystal_PCF8574.cpp:99-141 | setting a flag twice is setting it once, and setting an already set flag changes nothing |
| `LcdPcf8574.Pcf8574Lcd.constructor` | lib/LiquidCrystal_PCF8574/LiquidCrystal_PCF8574.cpp:23-30 | backlight off, display on, left-to-right entry, nothing sent |
| `LcdPcf8574.Pcf8574Lcd.Write2Wire` | lib/LiquidCrystal_PCF8574/LiquidCrystal_PCF8574.cpp:243-258 | one expander byte is written with the current backlight |
| `LcdPcf8574.Pcf8574Lcd.SendNibble` | lib/LiquidCrystal_PCF8574/LiquidCrystal_PCF8574.cpp:232-238 | a nibble is written with EN high, then EN low |
| `LcdPcf8574.Pcf8574Lcd.Send` | lib/LiquidCrystal_PCF8574/LiquidCrystal_PCF8574.cpp:223-229 | a byte goes out as its high then its low nibble |
| `LcdPcf8574.Pcf8574Lcd.Clear` | lib/LiquidCrystal_PCF8574/LiquidCrystal_PCF8574.cpp:71-76 | sends the clear instruction 0x01 |
| `LcdPcf8574.Pcf8574Lcd.Home` | lib/LiquidCrystal_PCF8574/LiquidCrystal_PCF8574.cpp:83-88 | sends the home instruction 0x02 |
| `LcdPcf8574.Pcf8574Lcd.SetCursor` | lib/LiquidCrystal_PCF8574/LiquidCrystal_PCF8574.cpp:91-96 | sends the cursor command for the cell |
| `LcdPcf8574.Pcf8574Lcd.SetDisplayFlag` | lib/LiquidCrystal_PCF8574/LiquidCrystal_PCF8574.cpp:99-141 | updates one display-control flag and sends the whole register |
| `LcdPcf8574.Pcf8574Lcd.Display` | lib/LiquidCrystal_PCF8574/LiquidCrystal_PCF8574.cpp:106-111 | display bit set, other bits kept, idempotent |
| `LcdPcf8574.Pcf8574Lcd.NoDisplay` | lib/LiquidCrystal_PCF8574/LiquidCrystal_PCF8574.cpp:99-104 | display bit cleared, other bits kept, idempotent |
| `LcdPcf8574.Pcf8574Lcd.Cursor` | lib/LiquidCrystal_PCF8574/LiquidCrystal_PCF8574.cpp:114-119 | cursor bit set, other bits kept, idempotent |
| `LcdPcf8574.Pcf8574Lcd.NoCursor` | lib/LiquidCrystal_PCF8574/LiquidCrystal_PCF8574.cpp:121-126 | cursor bit cleared, other bits kept, idempotent |
| `LcdPcf8574.Pcf8574Lcd.Blink` | lib/LiquidCrystal_PCF8574/LiquidCrystal_PCF8574.cpp:129-134 | blink bit set, other bits kept, idempotent |
| `LcdPcf8574.Pcf8574Lcd.NoBlink` | lib/LiquidCrystal_PCF8574/LiquidCrystal_PCF8574.cpp:136-141 | blink bit cleared, other bits kept, idempotent |
| `LcdPcf8574.Pcf8574Lcd.ScrollDisplayLeft` | lib/LiquidCrystal_PCF8574/LiquidCrystal_PCF8574.cpp:144-149 | sends the shift-left instruction 0x18 |
| `LcdPcf8574.Pcf8574Lcd.ScrollDisplayRight` | lib/LiquidCrystal_PCF8574/LiquidCrystal_PCF8574.cpp:151-156 | sends the shift-right instruction 0x1C |
| `LcdPcf8574.Pcf8574Lcd.SetEntryFlag` | lib/LiquidCrystal_PCF8574/LiquidCrystal_PCF8574.cpp:161-190 | updates one entry-mode flag and sends the whole register |
| `LcdPcf8574.Pcf8574Lcd.LeftToRight` | lib/LiquidCrystal_PCF8574/LiquidCrystal_PCF8574.cpp:161-166 | increment bit set, other bits kept |
| `LcdPcf8574.Pcf8574Lcd.RightToLeft` | lib/LiquidCrystal_PCF8574/LiquidCrystal_PCF8574.cpp:169-174 | increment bit cleared, other bits kept |
| `LcdPcf8574.Pcf8574Lcd.Autoscroll` | lib/LiquidCrystal_PCF8574/LiquidCrystal_PCF8574.cpp:177-182 | shift bit set, other bits kept |
| `LcdPcf8574.Pcf8574Lcd.NoAutoscroll` | lib/LiquidCrystal_PCF8574/LiquidCrystal_PCF8574.cpp:185-190 | shift bit cleared, other bits kept |
| `LcdPcf8574.Pcf8574Lcd.SetBacklight` | lib/LiquidCrystal_PCF8574/LiquidCrystal_PCF8574.cpp:195-200 | stores the brightness and writes one byte whose backlight bit is set exactly when it is positive |
| `LcdPcf8574.Pcf8574Lcd.Write` | lib/LiquidCrystal_PCF8574/LiquidCrystal_PCF8574.cpp:216-220 | sends the character as data |
| `LcdPcf8574.Pcf8574Lcd.CreateChar` | lib/LiquidCrystal_PCF8574/LiquidCrystal_PCF8574.cpp:204-213 | sends the set-CGRAM command, then the eight rows as data |
| `LcdPcf8574.Pcf8574Lcd.Reset` | lib/LiquidCrystal_PCF8574/LiquidCrystal_PCF8574.cpp:47-60 | the power-on reset sequence: a zero byte, three 8-bit function sets, the switch to 4-bit mode |
| `LcdPcf8574.Pcf8574Lcd.Begin` | lib/LiquidCrystal_PCF8574/LiquidCrystal_PCF8574.cpp:33-69 | reset, then the function set for the number of lines, display on, clear, entry mode left to right |
| `OledI2c.Received` | lib/OLedI2C/OLedI2C.cpp:259-293 | a transmission is read by the display as a command or as data, carrying its payload |
| `OledI2c.FramesReceived` | lib/OLedI2C/OLedI2C.cpp:259-293 | command and data transmissions are told apart and deliver their byte |
| `OledI2c.CursorCommand` | lib/OLedI2C/OLedI2C.cpp:29-33 | set-DDRAM command 0x80 plus column plus 0x20 per row |
| `OledI2c.CursorPositionsDistinct` | lib/OLedI2C/OLedI2C.cpp:29-33 | different cells get different commands |
| `OledI2c.CgramCommand` | lib/OLedI2C/OLedI2C.cpp:89-91 | set-CGRAM command for location `location & 7` |
| `OledI2c.FadeOnlyModeDiffers` | lib/OLedI2C/OLedI2C.cpp:60-84 | fade-out and its cancel send the same sequence except the mode byte 0x21 / 0x00 |
| `OledI2c.ThreeDigitBounds` | lib/OLedI2C/OLedI2C.cpp:299-312 | with three digits, every glyph index of `print3x3Number` is inside the table exactly when the number is below 1000 |
| `OledI2c.ThreeDigitIndices` | lib/OLedI2C/OLedI2C.cpp:299-312 | for a three-digit number the `uint8_t` indices are three times its hundreds, tens and units |
| `OledI2c.ThreeDigitsAsIntended` | lib/OLedI2C/OLedI2C.cpp:296-410 | with three digits the written rows are the intended rows |
| `OledI2c.FewerDigitsDropDigits` | lib/OLedI2C/OLedI2C.cpp:300-336 | with one or two digits the written code blanks the leading digit: on every row 42 shows a blank then the glyph of 2, and 7 shows only a blank |
| `OledI2c.FewerDigitsDiffer` | lib/OLedI2C/OLedI2C.cpp:300-336 | for 42 with two digits and 7 with one, the written top row differs from the intended one |
| `OledI2c.IntendedShowsEveryDigit` | lib/OLedI2C/OLedI2C.cpp:296-410 | the intended rows show each requested digit's glyph |
| `OledI2c.OLedI2C.SendCommand` | lib/OLedI2C/OLedI2C.cpp:259-266 | one command transmission |
| `OledI2c.OLedI2C.SendData` | lib/OLedI2C/OLedI2C.cpp:287-293 | one data transmission |
| `OledI2c.OLedI2C.Write` | lib/OLedI2C/OLedI2C.cpp:281-285 | one data transmission of the character |
| `OledI2c.OLedI2C.SetCursor` | lib/OLedI2C/OLedI2C.cpp:29-33 | one cursor command |
| `OledI2c.OLedI2C.Clear` | lib/OLedI2C/OLedI2C.cpp:35-38 | the clear command 0x01 |
| `OledI2c.OLedI2C.LcdOff` | lib/OLedI2C/OLedI2C.cpp:40-43 | display off, 0x08 |
| `OledI2c.OLedI2C.LcdOn` | lib/OLedI2C/OLedI2C.cpp:45-48 | display on, 0x0C |
| `OledI2c.OLedI2C.BlinkingCursorOn` | lib/OLedI2C/OLedI2C.cpp:50-53 | display on with blinking cursor, 0x0D |
| `OledI2c.OLedI2C.BlinkingCursorOff` | lib/OLedI2C/OLedI2C.cpp:55-58 | display on without cursor, 0x0C |
| `OledI2c.OLedI2C.SendFade` | lib/OLedI2C/OLedI2C.cpp:60-84 | the six-command fade sequence for either mode |
| `OledI2c.OLedI2C.FadeOut` | lib/OLedI2C/OLedI2C.cpp:60-71 | the fade sequence with mode 0x21 |
| `OledI2c.OLedI2C.FadeOutCancel` | lib/OLedI2C/OLedI2C.cpp:73-84 | the fade sequence with mode 0x00 |
| `OledI2c.OLedI2C.Backlight` | lib/OLedI2C/OLedI2C.cpp:268-278 | the six-command contrast sequence carrying the contrast byte |
| `OledI2c.OLedI2C.CreateChar` | lib/OLedI2C/OLedI2C.cpp:87-99 | the CGRAM command, then the eight rows as data |
| `OledI2c.OLedI2C.DefineCustomChars` | lib/OLedI2C/OLedI2C.cpp:412-502 | the eight glyphs of a set into locations 0..7 in order |
| `OledI2c.OLedI2C.Send3x3Row` | lib/OLedI2C/OLedI2C.cpp:322-350 | a cursor command, then the written row of glyph bytes |
| `OledI2c.OLedI2C.Print3x3Number` | lib/OLedI2C/OLedI2C.cpp:296-410 | `print3x3Number` as written: the 3x3 set if not loaded, then three rows as written |
| `OledI2c.OLedI2C.Print3x3Intended` | lib/OLedI2C/OLedI2C.cpp:296-410 | the corrected printer: the 3x3 set if not loaded, then three rows that show every requested digit |
| `OledI2c.OLedI2C.Send4x4Row` | lib/OLedI2C/OLedI2C.cpp:517-526 | a cursor command, tens glyph, a blank, units glyph |
| `OledI2c.OLedI2C.Print4x4Number` | lib/OLedI2C/OLedI2C.cpp:505-561 | the 4x4 set if not loaded, then the four rows of the number |
| `BigDigits.TwoDigitRow` | src/screen.cpp:172-219 | a row of a two-digit number: tens glyph, a blank, units glyph |
| `BigDigits.TwoDigitIndicesInBounds` | src/screen.cpp:172-174 | the table indices of `printTwoNumber` are in bounds exactly when the number is below 100 |
| `BigDigits.ReadBack4` | src/screen.cpp:166-169 | each 4x4 digit can be read back from its glyph cells |
| `BigDigits.ReadBack3` | lib/OLedI2C/OLedI2C.cpp:314-316 | each 3x3 digit can be read back from its glyph cells |
| `BigDigits.DigitsDistinguishable` | src/screen.cpp:166-169 | different digits have different glyph stacks in both sets |
| `BigDigits.TwoDigitNumbersDistinguishable` | src/screen.cpp:172-219 | different two-digit numbers differ on some row |
| `Screen.Padded` | src/screen.cpp:56-66 | `lcd_print` always emits exactly `size` characters |
| `Screen.PaddedIsTextThenBlanks` | src/screen.cpp:56-66 | the text up to its terminator, then blanks up to `size` |
| `Screen.BarColumn` | src/screen.cpp:69-74 | the bar's column is on the display, and in the last column exactly from 100 % |
| `Screen.BarColumnMonotone` | src/screen.cpp:72 | a larger value never puts the bar further left |
| `Screen.Display.SetLcdOn` | src/screen.cpp:45-48 | display on command and flag |
| `Screen.Display.SetLcdOff` | src/screen.cpp:50-53 | display off command and flag |
| `Screen.Display.LcdPrint` | src/screen.cpp:56-66 | the padded text as data |
| `Screen.Display.PrintBar` | src/screen.cpp:69-74 | nothing at 0; otherwise the bar character at its column in row 1 |
| `Screen.Display.PrintTwoNumber` | src/screen.cpp:172-219 | the four rows of the number in the 4x4 set |
| `Screen.Display.DefineCustomChar` | src/screen.cpp:221-230 | the 4x4 set into locations 0..7 |
| `RelayControl.InputOps` | lib/RelayController/RelayController.cpp:25-32 | one write per input pin 3.., high exactly on the selected pin |
| `RelayControl.InputOpsOneHot` | lib/RelayController/RelayController.cpp:25-32 | afterwards each input pin reads high exactly when it is the selected one; other pins are not written |
| `RelayControl.InputOpsHighCount` | lib/RelayController/RelayController.cpp:25-32 | at most one input relay is driven high |
| `RelayControl.TriggerLevels` | lib/RelayController/RelayController.cpp:53-71 | the trigger writes put pins 1 and 2 at the requested level and touch nothing else |
| `RelayControl.RelayController.constructor` | lib/RelayController/RelayController.cpp:8-12 | standard trigger, no sensors, nothing written |
| `RelayControl.RelayController.Begin` | lib/RelayController/RelayController.cpp:14-23 | pins 1..8 are outputs and read low afterwards |
| `RelayControl.RelayController.SetInput` | lib/RelayController/RelayController.cpp:25-32 | the input writes, recording the input when there are two or more |
| `RelayControl.RelayController.SetAlternateTrigger` | lib/RelayController/RelayController.cpp:39-44 | records the sensor inputs and leaves the standard trigger |
| `RelayControl.RelayController.SetStandardTrigger` | lib/RelayController/RelayController.cpp:46-51 | clears the sensors and returns to the standard trigger |
| `RelayControl.RelayController.SetTriggerOn` | lib/RelayController/RelayController.cpp:53-61 | with the standard trigger both trigger pins go high; otherwise nothing |
| `RelayControl.RelayController.SetTriggerOff` | lib/RelayController/RelayController.cpp:63-71 | with the standard trigger both trigger pins go low; otherwise nothing |
| `RelayControl.RelayController.GetInput` | lib/RelayController/RelayController.cpp:74-77 | the recorded input |
| `RelayControl.RelayController.Mute` | lib/RelayController/RelayController.cpp:83-86 | the selected pin goes low when muting and high when unmuting, and no other pin changes |
| `WebUi.SliderCommand` | data/script.js:40 | the slider message is its id, a colon, its value |
| `WebUi.SliderCommandParses` | data/script.js:36-41 | a slider message splits back at the first colon into its id and value |
| `WebUi.FixedCommandsAreNameValue` | data/script.js:31-61 | every fixed button message has the same name:value shape |
| `WebUi.RunIsOverwrite` | data/script.js:68-92 | a message's writes succeed up to the first missing element, and the page is overwritten by exactly those |
| `WebUi.MessageIdempotent` | data/script.js:63-93 | applying the same message twice leaves the page as applying it once |
| `WebUi.LaterWriteWins` | data/script.js:68-92 | with every element present, each property ends with its last written value and unwritten ones keep theirs |
| `WebUi.KeyWritesTargets` | data/script.js:71-91 | `VolumeSteps` writes only the slider's maximum, `Temp1` also the second sensor's label, any other key its own value and text |
| `WebUi.Temp1AlsoSetsTemp2` | data/script.js:82-88 | a message with only `Temp1` leaves its value on the second sensor's label |
| `WebUi.KeyWritesIntended` | data/script.js:71-91 | the per-key writes with `break` after each temperature case |
| `WebUi.IntendedWritesOwnElements` | data/script.js:71-91 | with the intended cases each key writes only its own element and label, and no property twice |
| `WebUi.Temp1WritesForeignLabel` | data/script.js:82-88 | the written `Temp1` case writes a label that is not its own, which the intended one does not |
| `WebUi.Page.SetProperty` | data/script.js:73 | one property write, failing on a missing element |
| `WebUi.Page.ApplyKey` | data/script.js:71-91 | one key's case of the switch |
| `WebUi.Page.OnMessage` | data/script.js:63-93 | the page afterwards is the message's writes run in order, stopping at the first missing element |
| `WebUi.Page.GetValues` | data/script.js:9-11 | sends `getValues` |
| `WebUi.Page.TogglePower` | data/script.js:31-34 | sends `Power:Toggle` |
| `WebUi.Page.ChangeVolume` | data/script.js:36-41 | echoes the slider value into its text and sends `id:value` |
| `WebUi.Page.ChangeVolumeDown` | data/script.js:43-46 | sends `Volume:Down` |
| `WebUi.Page.ChangeVolumeUp` | data/script.js:48-51 | sends `Volume:Up` |
| `WebUi.Page.ChangePrevInput` | data/script.js:53-56 | sends `Input:Down` |
| `WebUi.Page.ChangeNextInput` | data/script.js:58-61 | sends `Input:Up` |

## Left out

- The supply measurement of the power-off check (`src/main.cpp:693-699`): the ADC conversion is the parameter `vcc` of `Loop`, in millivolts.
- Encoder position overflow: `loop` polls `rotary_process` and keeps the count in the field `encoderPos`, which `ReadEncoder` updates; its 16-bit `int` overflow is not modelled (a pass of `loop` adds at most a remote click and an encoder step, and consumes them).
- The VxD encoder interrupt handlers `doEncoderA` and `doEncoderB` (`src/vincent.cpp:1372-1397`): concurrency is not modelled; the clicks they collect arrive in the field `encoderPos` that the VxD `ApplyEncoder` consumes.
- Delays inside display calls and the relay latch sequence are not modelled; `millis()` is one `now` per section of `loop`.
- LCD fade-in and fade-out timing and `sinMap`, the self-test, the calibration procedure and its floating-point maths, `toErrorState` and the menu drawing text: outside the modelled core.
- The IR section of the VxD `loop` (`src/vincent.cpp:1714-1771`), and the VxD `toSetupState`, `toIOState`, `toRunState` and `setup`: only the decoder, encoder, feedback, volume and EEPROM parts of `vincent.cpp` are modelled.
- `setCalibrationRelays` and the relays outside input/output selection in `vincent.cpp`: hardware sequencing only.
- `LDRstruct.h` is not part of this model: the calibration sample is taken to be six bytes (series PWM, series current low and high byte, shunt PWM, shunt current low and high byte); only the round trip depends on that order.
- OLED `PowerUp`, `PowerDown`, sleep and `begin` (`lib/OLedI2C/OLedI2C.cpp:101-257`): fixed initialisation sequences with delays.
- `defineCustomChar3x3` and `defineCustomChar4x4` are modelled as `DefineCustomChars` applied to the glyph tables of `BigDigits`.
- The header files and `MenuData.h`: constants only, written into the modules where used.
- The WebSocket itself (`onload`, `initWebSocket`, the reconnect in `onClose`), `JSON.parse` (a message is a sequence of key/value strings), `String(value)` (values are strings) and `console.log`.
- Branches switched off by constant configuration: the home-theatre pass-through (`ENABLEHTPASSTHROUGH` is false), `INPUTCOUNT <= 1`, and the relay variants of `vincent.cpp` for more than two inputs or outputs (`INPUTCOUNT` and `OUTPUTCOUNT` are 1, so the modelled build switches input relay R1 and output relay R5).
- `printTwoNumber` and `defineCustomChar` inside `LiquidCrystal_PCF8574.cpp` duplicate `screen.cpp`; `init()` is `clear()`; the I2C address is not logged.
- The OLED driver never assigns `charSet` itself; the model keeps the field and reads it as the printers do.
- `RelayController`'s constructor leaves `selectedInput` uninitialised; the model starts it at 0. `setInputName`/`getInputName` are empty stubs. `SetTriggerOff` models the function spelled `SetTrifferOff`.
- The B1 controller's display output is a log of abstract display calls; `Screen` and `OledI2c` give their bytes.
- The VxD display: `setInput` and `setOutput` print the channel name (`src/vincent.cpp:1103-1104`, `1132-1133`), which is not modelled; of the VxD screen only the volume numbers are kept, in `shown`.
- `B1Controller.Controller.DispatchKey`: for input keys the display calls are not stated in its contract; `SelectInput` states them for each selection.
- `WebUi.MessageIdempotent`: the page is the map of properties the script writes; a browser also clamps a range input's value to its `max`, so `[("Volume","80"),("VolumeSteps","100")]` on a slider with max 64 shows 64 the first time and 80 the second. That clamping is not modelled.
- `WebUi.LaterWriteWins`: for the same reason, the slider's value is the last value written only when it is within the slider's `max`.
- `VxdController.Nudge`: the `abs` of an `int16_t` difference of -32768 is not wrapped back to 16 bits, because a difference of two 16-bit currents of that size does not occur in calibration.
- `Screen.Display.PrintTwoNumber`: requires a number below 100, because larger numbers read past the glyph tables (`BigDigits.TwoDigitIndicesInBounds`).
- `OledI2c.OLedI2C.Print4x4Number`: requires a number below 100 for the same reason.
- `OledI2c.OLedI2C.Print3x3Number`: requires the glyph indices to be in bounds (`InBounds3x3`), which for three digits means a number below 1000 (`OledI2c.ThreeDigitBounds`).
- `RelayControl.RelayController.SetInput`: requires at most 253 inputs, because with a `byte` loop counter the loop would never end for larger counts.
- `Steps.StepVolume`: states the clamping for the sums the encoder produces (at most a few clicks per pass); for a volume 6 or more below 0 the byte wraps and clamps to the maximum, as the source does.

## Findings

| source | as written | input that shows it | evidently intended | confidence | as-written member | corrected member |
|---|---|---|---|---|---|---|
| src/vincent.cpp:1221-1258 | `getIRkey` has no `return` when the start space is 5000 µs or longer | a single 6000 µs pulse | return the error key 255 | not executed | `NecDecoder.FrameAsWritten`, `NecDecoder.LongStartHasNoResult` | `NecDecoder.Key`, `NecDecoder.GetIRKey` |
| lib/OLedI2C/OLedI2C.cpp:296-410 | `print3x3Number` blanks its first glyph whenever the number has no hundreds, even when one or two digits are asked for | 42 with two digits shows only "2"; 7 with one digit shows nothing | blank only a leading zero of a three-digit field | not executed | `OledI2c.FewerDigitsDropDigits`, `OledI2c.FewerDigitsDiffer`, `OledI2c.OLedI2C.Print3x3Number` | `OledI2c.OLedI2C.Print3x3Intended`, `OledI2c.IntendedShowsEveryDigit` |
| data/script.js:82-88 | the `Temp1` case has no `break` and falls into `Temp2`, writing the second sensor's label | a message `{"Temp1": 30}` | each temperature writes only its own value and label | not executed | `WebUi.Temp1AlsoSetsTemp2`, `WebUi.Temp1WritesForeignLabel` | `WebUi.KeyWritesIntended`, `WebUi.IntendedWritesOwnElements` |

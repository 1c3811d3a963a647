/** The `RelayController` library: an MCP23008 port expander whose pins 1 and 2 drive the
    trigger outputs and whose pins from 3 on drive one input relay each. The expander is the
    log of calls made on it. */
module RelayControl {
  import opened Common

  /** The `digitalWrite`s of `setInput(n)` with `count` inputs: pins 3 .. count + 1 in order,
      each HIGH exactly when it is pin `n`. */
  function InputOps(n: byte, count: byte): (ops: seq<ExpanderOp>)
    ensures |ops| == if count >= 2 then count - 1 else 0
    ensures forall i :: 0 <= i < |ops| ==> ops[i] == DigitalWrite(i + 3, n == i + 3)
  {
    seq(if count >= 2 then count - 1 else 0, i => DigitalWrite(i + 3, n == i + 3))
  }

  /** After `setInput(n)` each relay pin holds HIGH exactly when it is pin `n`, and no pin outside
      3 .. count + 1 has been written. */
  lemma InputOpsOneHot(n: byte, count: byte, pin: int)
    ensures 3 <= pin < count + 2 ==> LastWrite(InputOps(n, count), pin) == Some(pin == n)
    ensures !(3 <= pin < count + 2) ==> LastWrite(InputOps(n, count), pin) == None
  {
    var ops := InputOps(n, count);
    if 3 <= pin < count + 2 {
      LastWriteOfDistinct(ops, pin - 3);
    } else {
      LastWriteUntouched(ops, pin);
    }
  }

  /** Exactly one relay is switched on by `setInput(n)` when `n` is a relay pin, none otherwise. */
  lemma InputOpsHighCount(n: byte, count: byte)
    ensures 3 <= n < count + 2 ==> (forall i :: 0 <= i < |InputOps(n, count)| && InputOps(n, count)[i].high ==> i == n - 3)
                                    && InputOps(n, count)[n - 3].high
    ensures !(3 <= n < count + 2) ==> forall i :: 0 <= i < |InputOps(n, count)| ==> !InputOps(n, count)[i].high
  {
  }

  /** The calls of `begin`: each of pins 1..8 made an output, then written LOW. */
  function BeginOps(): (ops: seq<ExpanderOp>)
    ensures |ops| == 16
  {
    seq(16, i => if i % 2 == 0 then PinMode(i / 2 + 1) else DigitalWrite(i / 2 + 1, false))
  }

  /** The two writes of `setTriggerOn` / `SetTrifferOff`. */
  function TriggerOps(on: bool): (ops: seq<ExpanderOp>)
    ensures |ops| == 2
  {
    [DigitalWrite(1, on), DigitalWrite(2, on)]
  }

  /** The trigger writes leave pins 1 and 2 at the requested level and no other pin written. */
  lemma TriggerLevels(on: bool, pin: int)
    ensures LastWrite(TriggerOps(on), pin) == if pin == 1 || pin == 2 then Some(on) else None
  {
    var ops := TriggerOps(on);
    assert ops[..1] == [DigitalWrite(1, on)];
    assert ops[..1][..0] == [];
    assert LastWrite(ops[..1][..0], pin) == None;
    assert LastWrite(ops[..1], pin) == if pin == 1 then Some(on) else None;
  }

  class RelayController {
    var selectedInput: byte
    var numOfInputs: byte
    var sensorRight: byte
    var sensorLeft: byte
    var standardTrigger: bool
    var mcp: seq<ExpanderOp>

    /** `RelayController(inputs)`: stores the count and selects the standard trigger. */
    constructor(inputs: byte)
      ensures numOfInputs == inputs && standardTrigger && sensorRight == 0 && sensorLeft == 0
      ensures selectedInput == 0 && mcp == []
    {
      numOfInputs := inputs;
      selectedInput := 0;
      mcp := [];
      sensorRight := 0;
      sensorLeft := 0;
      standardTrigger := true;
    }

    /** `begin()`: every pin 1..8 an output written LOW. */
    method Begin()
      modifies this`mcp
      ensures mcp == old(mcp) + BeginOps()
      ensures forall pin :: 1 <= pin <= 8 ==> LastWrite(mcp, pin) == Some(false)
    {
      var pin := 1;
      while pin <= 8
        invariant 1 <= pin <= 9
        invariant mcp == old(mcp) + BeginOps()[..2 * (pin - 1)]
        invariant forall p :: 1 <= p < pin ==> LastWrite(mcp, p) == Some(false)
      {
        ghost var before := mcp;
        var step := [PinMode(pin), DigitalWrite(pin, false)];
        mcp := mcp + step;
        assert step[..1] == [PinMode(pin)];
        assert step[..1][..0] == [];
        forall p | 1 <= p <= pin
          ensures LastWrite(mcp, p) == Some(false)
        {
          LastWriteConcat(before, step, p);
          if p < pin {
            assert LastWrite(step[..1], p) == None;
          }
        }
        assert BeginOps()[..2 * pin] == BeginOps()[..2 * (pin - 1)] + step;
        pin := pin + 1;
      }
      assert BeginOps()[..16] == BeginOps();
    }

    /** `setInput(n)`: writes each relay pin 3 .. numOfInputs + 1, HIGH only pin `n`; the
        selection is stored inside the loop, so only when it runs at least once. The loop
        counter is a byte, so from 254 inputs on it would never end. */
    method SetInput(n: byte)
      requires numOfInputs <= 253
      modifies this`mcp, this`selectedInput
      ensures mcp == old(mcp) + InputOps(n, numOfInputs)
      ensures selectedInput == if numOfInputs >= 2 then n else old(selectedInput)
    {
      var pin := 3;
      while pin < numOfInputs + 2
        invariant 3 <= pin && (numOfInputs >= 2 ==> pin <= numOfInputs + 2)
        invariant numOfInputs < 2 ==> pin == 3
        invariant mcp == old(mcp) + InputOps(n, numOfInputs)[..pin - 3]
        invariant selectedInput == if pin > 3 then n else old(selectedInput)
      {
        mcp := mcp + [DigitalWrite(pin, n == pin)];
        selectedInput := n;
        pin := pin + 1;
      }
      assert InputOps(n, numOfInputs)[..pin - 3] == InputOps(n, numOfInputs);
    }

    /** `setAlternateTrigger(inputRight, inputLeft)` */
    method SetAlternateTrigger(inputRight: byte, inputLeft: byte)
      modifies this`sensorRight, this`sensorLeft, this`standardTrigger
      ensures sensorRight == inputRight && sensorLeft == inputLeft && !standardTrigger
    {
      sensorRight := inputRight;
      sensorLeft := inputLeft;
      standardTrigger := false;
    }

    /** `setStandardTrigger()` */
    method SetStandardTrigger()
      modifies this`sensorRight, this`sensorLeft, this`standardTrigger
      ensures sensorRight == 0 && sensorLeft == 0 && standardTrigger
    {
      sensorRight := 0;
      sensorLeft := 0;
      standardTrigger := true;
    }

    /** `setTriggerOn()`: pins 1 and 2 HIGH with the standard trigger, nothing otherwise. */
    method SetTriggerOn()
      modifies this`mcp
      ensures mcp == old(mcp) + if standardTrigger then TriggerOps(true) else []
    {
      if standardTrigger {
        mcp := mcp + [DigitalWrite(1, true)];
        mcp := mcp + [DigitalWrite(2, true)];
      }
    }

    /** `SetTrifferOff()`: pins 1 and 2 LOW with the standard trigger, nothing otherwise. */
    method SetTriggerOff()
      modifies this`mcp
      ensures mcp == old(mcp) + if standardTrigger then TriggerOps(false) else []
    {
      if standardTrigger {
        mcp := mcp + [DigitalWrite(1, false)];
        mcp := mcp + [DigitalWrite(2, false)];
      }
    }

    /** `getInput()` */
    method GetInput() returns (n: byte)
      ensures n == selectedInput
    {
      n := selectedInput;
    }

    /** `mute(on)`: the selected relay is released while muted and closed again after; no other
        pin changes. */
    method Mute(on: bool)
      modifies this`mcp
      ensures mcp == old(mcp) + [DigitalWrite(selectedInput, !on)]
      ensures LastWrite(mcp, selectedInput) == Some(!on)
      ensures forall pin :: pin != selectedInput ==> LastWrite(mcp, pin) == LastWrite(old(mcp), pin)
    {
      mcp := mcp + [DigitalWrite(selectedInput, on == false)];
    }
  }
}

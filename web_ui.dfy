/** The controller's web page (data/script.js): the buttons and slider send WebSocket commands,
    and each JSON message from the controller is applied key by key to the page's elements.
    The page is the map of element properties the script has written; `getElementById` of an
    id the document lacks returns null, and the write that follows throws, ending the handler. */
module WebUi {
  import opened Common

  /** An element property the script writes. */
  datatype Target = Value(id: string) | Inner(id: string) | Max(id: string)

  /** The messages the fixed controls send. */
  const GetValuesCommand: string := "getValues"
  const PowerToggleCommand: string := "Power:Toggle"
  const VolumeDownCommand: string := "Volume:Down"
  const VolumeUpCommand: string := "Volume:Up"
  const InputDownCommand: string := "Input:Down"
  const InputUpCommand: string := "Input:Up"

  /** What `changeVolume` sends for a slider: its id, a colon, its value. */
  function SliderCommand(id: string, value: string): (c: string)
    ensures |c| == |id| + 1 + |value| && c[|id|] == ':'
  {
    id + ":" + value
  }

  /** The position of the first colon in `s`, if any. */
  function ColonAt(s: string): (k: nat)
    ensures k <= |s| && (k < |s| ==> s[k] == ':')
    ensures forall j :: 0 <= j < k ==> s[j] != ':'
  {
    if s == [] then 0 else if s[0] == ':' then 0 else 1 + ColonAt(s[1..])
  }

  /** How the controller reads a command: the name before the first colon and the argument
      after it, or the whole text as a name without argument. */
  function ParseCommand(s: string): (string, string) {
    var k := ColonAt(s);
    if k < |s| then (s[..k], s[k + 1..]) else (s, "")
  }

  /** A slider command whose id has no colon is read back as that id and value. */
  lemma SliderCommandParses(id: string, value: string)
    requires forall j :: 0 <= j < |id| ==> id[j] != ':'
    ensures ParseCommand(SliderCommand(id, value)) == (id, value)
  {
    var c := SliderCommand(id, value);
    assert c[..|id|] == id;
    assert c[|id| + 1..] == value;
  }

  /** Each fixed button's command is a name and an argument joined like a slider command. */
  lemma FixedCommandsAreNameValue()
    ensures PowerToggleCommand == SliderCommand("Power", "Toggle")
    ensures VolumeDownCommand == SliderCommand("Volume", "Down")
    ensures VolumeUpCommand == SliderCommand("Volume", "Up")
    ensures InputDownCommand == SliderCommand("Input", "Down")
    ensures InputUpCommand == SliderCommand("Input", "Up")
  {
  }

  /** The property writes of one `case` of `onMessage`, in the order the code makes them,
      `Temp1` falling through into `Temp2` and `default`. */
  function KeyWrites(key: string): (ts: seq<Target>)
    ensures |ts| > 0
  {
    if key == "Volume" then [Value(key), Inner(key), Inner("VolumeValue")]
    else if key == "VolumeSteps" then [Max("Volume")]
    else if key == "Temp1" then
      [Value(key), Inner("Temp1Value"), Value(key), Inner("Temp2Value"), Value(key), Inner(key)]
    else if key == "Temp2" then [Value(key), Inner("Temp2Value"), Value(key), Inner(key)]
    else [Value(key), Inner(key)]
  }

  /** Each target of `ts` with the value written to it. */
  function WithValue(ts: seq<Target>, v: string): (w: seq<(Target, string)>)
    ensures |w| == |ts| && forall i :: 0 <= i < |ts| ==> w[i] == (ts[i], v)
  {
    seq(|ts|, i requires 0 <= i < |ts| => (ts[i], v))
  }

  /** All property writes of a message, key by key in message order. */
  function MessageWrites(msg: seq<(string, string)>): seq<(Target, string)>
    decreases |msg|
  {
    if msg == [] then []
    else MessageWrites(msg[..|msg| - 1]) + WithValue(KeyWrites(msg[|msg| - 1].0), msg[|msg| - 1].1)
  }

  /** The page after making writes `w` in order on a document whose elements are `ids`, and
      whether they all succeeded: the first write to a missing element throws and ends them. */
  function Run(ui: map<Target, string>, ids: set<string>, w: seq<(Target, string)>): (map<Target, string>, bool)
    decreases |w|
  {
    if w == [] then (ui, true)
    else if w[0].0.id !in ids then (ui, false)
    else Run(ui[w[0].0 := w[0].1], ids, w[1..])
  }

  /** Making two lists of writes one after the other, the second only if the first succeeded. */
  lemma {:induction false} RunConcat(ui: map<Target, string>, ids: set<string>, a: seq<(Target, string)>, b: seq<(Target, string)>)
    ensures Run(ui, ids, a + b) == if Run(ui, ids, a).1 then Run(Run(ui, ids, a).0, ids, b) else Run(ui, ids, a)
    decreases |a|
  {
    if a == [] {
      assert a + b == b;
    } else {
      assert (a + b)[1..] == a[1..] + b;
      if a[0].0.id in ids {
        RunConcat(ui[a[0].0 := a[0].1], ids, a[1..], b);
      }
    }
  }

  /** How many writes of `w` succeed: the position of the first write to a missing element. */
  function Reach(ids: set<string>, w: seq<(Target, string)>): (k: nat)
    ensures k <= |w|
    ensures forall j :: 0 <= j < k ==> w[j].0.id in ids
    ensures k < |w| ==> w[k].0.id !in ids
  {
    if w == [] || w[0].0.id !in ids then 0 else 1 + Reach(ids, w[1..])
  }

  /** `m` overwritten by the writes of `p`, in order. */
  function Overwrite(m: map<Target, string>, p: seq<(Target, string)>): map<Target, string>
    decreases |p|
  {
    if p == [] then m else Overwrite(m[p[0].0 := p[0].1], p[1..])
  }

  /** The value the last write to `t` in `p` stores, if `p` writes `t` at all. */
  function LastFor(p: seq<(Target, string)>, t: Target): (r: Option<string>)
    ensures r.None? <==> forall j :: 0 <= j < |p| ==> p[j].0 != t
    decreases |p|
  {
    if p == [] then None
    else
      var r := LastFor(p[1..], t);
      if r.Some? then r
      else if p[0].0 == t then Some(p[0].1)
      else (assert forall j :: 1 <= j < |p| ==> p[j] == p[1..][j - 1]; None)
  }

  /** Running the writes makes the ones before the first failing write, and succeeds exactly
      when none fails. */
  lemma {:induction false} RunIsOverwrite(ui: map<Target, string>, ids: set<string>, w: seq<(Target, string)>)
    ensures Run(ui, ids, w) == (Overwrite(ui, w[..Reach(ids, w)]), Reach(ids, w) == |w|)
    decreases |w|
  {
    if w != [] && w[0].0.id in ids {
      RunIsOverwrite(ui[w[0].0 := w[0].1], ids, w[1..]);
      assert w[..Reach(ids, w)][1..] == w[1..][..Reach(ids, w[1..])];
    }
  }

  /** After overwriting, a property holds the last value written to it, or its old one. */
  lemma {:induction false} OverwriteAt(m: map<Target, string>, p: seq<(Target, string)>, t: Target)
    ensures t in Overwrite(m, p) <==> t in m || LastFor(p, t).Some?
    ensures t in Overwrite(m, p) ==>
              Overwrite(m, p)[t] == if LastFor(p, t).Some? then LastFor(p, t).value else m[t]
    decreases |p|
  {
    if p != [] {
      OverwriteAt(m[p[0].0 := p[0].1], p[1..], t);
    }
  }

  /** Overwriting twice with the same writes is overwriting once. */
  lemma OverwriteIdempotent(m: map<Target, string>, p: seq<(Target, string)>)
    ensures Overwrite(Overwrite(m, p), p) == Overwrite(m, p)
  {
    var once := Overwrite(m, p);
    var twice := Overwrite(once, p);
    forall t
      ensures t in twice <==> t in once
      ensures t in twice ==> twice[t] == once[t]
    {
      OverwriteAt(m, p, t);
      OverwriteAt(once, p, t);
    }
  }

  /** Applying the same message twice leaves the page as applying it once. */
  lemma MessageIdempotent(ui: map<Target, string>, ids: set<string>, msg: seq<(string, string)>)
    ensures Run(Run(ui, ids, MessageWrites(msg)).0, ids, MessageWrites(msg)).0
            == Run(ui, ids, MessageWrites(msg)).0
  {
    var w := MessageWrites(msg);
    RunIsOverwrite(ui, ids, w);
    RunIsOverwrite(Run(ui, ids, w).0, ids, w);
    OverwriteIdempotent(ui, w[..Reach(ids, w)]);
  }

  /** When every element is present, each property ends with the value of the last write to it,
      and a property the message never writes keeps its value. */
  lemma LaterWriteWins(ui: map<Target, string>, ids: set<string>, msg: seq<(string, string)>, t: Target)
    requires forall j :: 0 <= j < |MessageWrites(msg)| ==> MessageWrites(msg)[j].0.id in ids
    ensures LastFor(MessageWrites(msg), t).Some? ==>
              t in Run(ui, ids, MessageWrites(msg)).0
              && Run(ui, ids, MessageWrites(msg)).0[t] == LastFor(MessageWrites(msg), t).value
    ensures LastFor(MessageWrites(msg), t).None? ==>
              (t in Run(ui, ids, MessageWrites(msg)).0 <==> t in ui)
              && (t in ui ==> Run(ui, ids, MessageWrites(msg)).0[t] == ui[t])
  {
    var w := MessageWrites(msg);
    RunIsOverwrite(ui, ids, w);
    assert w[..Reach(ids, w)] == w;
    OverwriteAt(ui, w, t);
  }

  /** The writes each key makes: `VolumeSteps` only the slider's maximum, `Temp1` also the
      second sensor's text, and any other key its own element's value and text. */
  lemma KeyWritesTargets(key: string)
    ensures key == "VolumeSteps" ==> forall t :: t in KeyWrites(key) ==> t == Max("Volume")
    ensures key == "Temp1" ==> Inner("Temp2Value") in KeyWrites(key) && Inner("Temp1") in KeyWrites(key)
    ensures key !in {"Volume", "VolumeSteps", "Temp1", "Temp2"} ==> KeyWrites(key) == [Value(key), Inner(key)]
  {
    if key == "Temp1" {
      assert KeyWrites(key)[3] == Inner("Temp2Value");
      assert KeyWrites(key)[5] == Inner("Temp1");
    }
  }

  /** When every write of `p` stores `v`, the last write to any property stores `v`. */
  lemma {:induction false} LastForUniform(p: seq<(Target, string)>, t: Target, v: string)
    requires forall j :: 0 <= j < |p| ==> p[j].1 == v
    ensures LastFor(p, t).Some? ==> LastFor(p, t).value == v
    decreases |p|
  {
    if p != [] {
      LastForUniform(p[1..], t, v);
    }
  }

  /** As written, a message carrying only `Temp1` falls through into the `Temp2` case and
      shows the first sensor's reading on the second sensor's label too. */
  lemma Temp1AlsoSetsTemp2()
    ensures var ids := {"Temp1", "Temp2", "Temp1Value", "Temp2Value"};
            var r := Run(map[], ids, MessageWrites([("Temp1", "30")]));
            r.1 && Inner("Temp2Value") in r.0 && r.0[Inner("Temp2Value")] == "30"
  {
    var ids := {"Temp1", "Temp2", "Temp1Value", "Temp2Value"};
    var w := MessageWrites([("Temp1", "30")]);
    Temp1MessageWrites(ids);
    RunIsOverwrite(map[], ids, w);
    assert Reach(ids, w) == |w|;
    assert w[..|w|] == w;
    LastForUniform(w, Inner("Temp2Value"), "30");
    assert LastFor(w, Inner("Temp2Value")).Some?;
    OverwriteAt(map[], w, Inner("Temp2Value"));
  }

  /** The six writes of a message carrying only `Temp1`: all of the value, all to elements of
      `ids`, the fourth to the second sensor's label. */
  lemma Temp1MessageWrites(ids: set<string>)
    requires ids == {"Temp1", "Temp2", "Temp1Value", "Temp2Value"}
    ensures var w := MessageWrites([("Temp1", "30")]);
            && |w| == 6 && w[3].0 == Inner("Temp2Value")
            && (forall j :: 0 <= j < 6 ==> w[j].1 == "30")
            && (forall j :: 0 <= j < 6 ==> w[j].0.id in ids)
  {
    var ts := KeyWrites("Temp1");
    var w := MessageWrites([("Temp1", "30")]);
    assert [("Temp1", "30")][..0] == [];
    assert w == WithValue(ts, "30");
    assert ts[3] == Inner("Temp2Value");
    assert forall j :: 0 <= j < 6 ==> ts[j].id in ids;
  }

  /** The writes of one key with a `break` ending the `Temp1` and `Temp2` cases, so that each
      temperature sets only its own slider and its own label. */
  function KeyWritesIntended(key: string): (ts: seq<Target>)
    ensures |ts| > 0
  {
    if key == "Volume" then [Value(key), Inner(key), Inner("VolumeValue")]
    else if key == "VolumeSteps" then [Max("Volume")]
    else if key == "Temp1" then [Value(key), Inner("Temp1Value")]
    else if key == "Temp2" then [Value(key), Inner("Temp2Value")]
    else [Value(key), Inner(key)]
  }

  /** With the intended cases, every key other than `VolumeSteps` writes only its own element
      or its own `<key>Value` label, and no property twice. */
  lemma IntendedWritesOwnElements(key: string)
    ensures key != "VolumeSteps" ==>
              forall t :: t in KeyWritesIntended(key) ==> t.id == key || t == Inner(key + "Value")
    ensures forall i, j :: 0 <= i < j < |KeyWritesIntended(key)| ==>
              KeyWritesIntended(key)[i] != KeyWritesIntended(key)[j]
  {
    assert "Volume" + "Value" == "VolumeValue";
    assert "Temp1" + "Value" == "Temp1Value";
    assert "Temp2" + "Value" == "Temp2Value";
  }

  /** The written `Temp1` case breaks that rule: it writes the second sensor's label. */
  lemma Temp1WritesForeignLabel()
    ensures Inner("Temp2Value") in KeyWrites("Temp1")
    ensures Inner("Temp2Value").id != "Temp1" && Inner("Temp2Value") != Inner("Temp1" + "Value")
    ensures Inner("Temp2Value") !in KeyWritesIntended("Temp1")
  {
    assert KeyWrites("Temp1")[3] == Inner("Temp2Value");
    assert "Temp1" + "Value" == "Temp1Value";
    assert "Temp2Value"[4] != "Temp1Value"[4];
  }

  /** The web page: its elements, the properties the script has set, and the WebSocket
      messages it has sent. */
  class Page {
    const ids: set<string>
    var ui: map<Target, string>
    var sent: seq<string>

    constructor(ids: set<string>)
      ensures this.ids == ids && ui == map[] && sent == []
    {
      this.ids := ids;
      ui := map[];
      sent := [];
    }

    /** `document.getElementById(t.id).<property> = v`: throws when the element is missing. */
    method SetProperty(t: Target, v: string) returns (ok: bool)
      modifies this`ui
      ensures (ui, ok) == Run(old(ui), ids, [(t, v)])
    {
      if t.id in ids {
        ui := ui[t := v];
        ok := true;
      } else {
        ok := false;
      }
      assert [(t, v)][1..] == [];
    }

    /** One property write of the handler, made only if no earlier one threw. */
    method Step(t: Target, v: string, okBefore: bool) returns (ok: bool)
      modifies this`ui
      ensures okBefore ==> (ui, ok) == Run(old(ui), ids, [(t, v)])
      ensures !okBefore ==> ui == old(ui) && !ok
    {
      ok := false;
      if okBefore {
        ok := SetProperty(t, v);
      }
    }

    /** One `case` of the `switch` in `onMessage`, `Temp1` falling through into `Temp2` and
        `default`; false when a write threw. */
    method ApplyKey(key: string, value: string) returns (ok: bool)
      modifies this`ui
      ensures (ui, ok) == Run(old(ui), ids, WithValue(KeyWrites(key), value))
    {
      ghost var done: seq<(Target, string)> := [];
      ok := true;
      if key == "Volume" {
        ok := Step(Value(key), value, ok);
        RunConcat(old(ui), ids, done, [(Value(key), value)]);
        done := done + [(Value(key), value)];
        ok := Step(Inner(key), value, ok);
        RunConcat(old(ui), ids, done, [(Inner(key), value)]);
        done := done + [(Inner(key), value)];
        ok := Step(Inner("VolumeValue"), value, ok);
        RunConcat(old(ui), ids, done, [(Inner("VolumeValue"), value)]);
        done := done + [(Inner("VolumeValue"), value)];
        assert done == WithValue([Value(key), Inner(key), Inner("VolumeValue")], value);
      } else if key == "VolumeSteps" {
        ok := Step(Max("Volume"), value, ok);
        RunConcat(old(ui), ids, done, [(Max("Volume"), value)]);
        done := done + [(Max("Volume"), value)];
        assert done == WithValue([Max("Volume")], value);
      } else if key == "Temp1" {
        ok := Step(Value(key), value, ok);
        RunConcat(old(ui), ids, done, [(Value(key), value)]);
        done := done + [(Value(key), value)];
        ok := Step(Inner("Temp1Value"), value, ok);
        RunConcat(old(ui), ids, done, [(Inner("Temp1Value"), value)]);
        done := done + [(Inner("Temp1Value"), value)];
        ok := Step(Value(key), value, ok);
        RunConcat(old(ui), ids, done, [(Value(key), value)]);
        done := done + [(Value(key), value)];
        ok := Step(Inner("Temp2Value"), value, ok);
        RunConcat(old(ui), ids, done, [(Inner("Temp2Value"), value)]);
        done := done + [(Inner("Temp2Value"), value)];
        ok := Step(Value(key), value, ok);
        RunConcat(old(ui), ids, done, [(Value(key), value)]);
        done := done + [(Value(key), value)];
        ok := Step(Inner(key), value, ok);
        RunConcat(old(ui), ids, done, [(Inner(key), value)]);
        done := done + [(Inner(key), value)];
        assert done == WithValue([Value(key), Inner("Temp1Value"), Value(key), Inner("Temp2Value"), Value(key), Inner(key)], value);
      } else if key == "Temp2" {
        ok := Step(Value(key), value, ok);
        RunConcat(old(ui), ids, done, [(Value(key), value)]);
        done := done + [(Value(key), value)];
        ok := Step(Inner("Temp2Value"), value, ok);
        RunConcat(old(ui), ids, done, [(Inner("Temp2Value"), value)]);
        done := done + [(Inner("Temp2Value"), value)];
        ok := Step(Value(key), value, ok);
        RunConcat(old(ui), ids, done, [(Value(key), value)]);
        done := done + [(Value(key), value)];
        ok := Step(Inner(key), value, ok);
        RunConcat(old(ui), ids, done, [(Inner(key), value)]);
        done := done + [(Inner(key), value)];
        assert done == WithValue([Value(key), Inner("Temp2Value"), Value(key), Inner(key)], value);
      } else {
        ok := Step(Value(key), value, ok);
        RunConcat(old(ui), ids, done, [(Value(key), value)]);
        done := done + [(Value(key), value)];
        ok := Step(Inner(key), value, ok);
        RunConcat(old(ui), ids, done, [(Inner(key), value)]);
        done := done + [(Inner(key), value)];
        assert done == WithValue([Value(key), Inner(key)], value);
      }
    }

    /** `onMessage(event)`: the keys of the parsed message applied in order, until a write
        throws. */
    method OnMessage(msg: seq<(string, string)>)
      modifies this`ui
      ensures ui == Run(old(ui), ids, MessageWrites(msg)).0
    {
      var i := 0;
      while i < |msg|
        invariant 0 <= i <= |msg|
        invariant (ui, true) == Run(old(ui), ids, MessageWrites(msg[..i]))
      {
        var ok := ApplyKey(msg[i].0, msg[i].1);
        MessageWritesSnoc(msg, i);
        RunConcat(old(ui), ids, MessageWrites(msg[..i]), WithValue(KeyWrites(msg[i].0), msg[i].1));
        if !ok {
          RunStops(old(ui), ids, msg, i + 1);
          return;
        }
        i := i + 1;
      }
      assert msg[..|msg|] == msg;
    }

    /** `getValues()` / `onOpen`: ask the controller for all its values. */
    method GetValues()
      modifies this`sent
      ensures sent == old(sent) + [GetValuesCommand]
    {
      sent := sent + [GetValuesCommand];
    }

    /** `tooglePower()` */
    method TogglePower()
      modifies this`sent
      ensures sent == old(sent) + [PowerToggleCommand]
    {
      sent := sent + [PowerToggleCommand];
    }

    /** `changeVolume(element)`: echoes the slider's value into its text and sends it. */
    method ChangeVolume(id: string, sliderValue: string)
      requires id in ids
      modifies this`ui, this`sent
      ensures ui == old(ui)[Inner(id) := sliderValue]
      ensures sent == old(sent) + [SliderCommand(id, sliderValue)]
    {
      ui := ui[Inner(id) := sliderValue];
      sent := sent + [id + ":" + sliderValue];
    }

    /** `changeVolumeDown()` */
    method ChangeVolumeDown()
      modifies this`sent
      ensures sent == old(sent) + [VolumeDownCommand]
    {
      sent := sent + [VolumeDownCommand];
    }

    /** `changeVolumeUp()` */
    method ChangeVolumeUp()
      modifies this`sent
      ensures sent == old(sent) + [VolumeUpCommand]
    {
      sent := sent + [VolumeUpCommand];
    }

    /** `changePrevInput()` */
    method ChangePrevInput()
      modifies this`sent
      ensures sent == old(sent) + [InputDownCommand]
    {
      sent := sent + [InputDownCommand];
    }

    /** `changeNextInput()` */
    method ChangeNextInput()
      modifies this`sent
      ensures sent == old(sent) + [InputUpCommand]
    {
      sent := sent + [InputUpCommand];
    }
  }

  /** The writes of one more key of a message. */
  lemma MessageWritesSnoc(msg: seq<(string, string)>, i: nat)
    requires i < |msg|
    ensures MessageWrites(msg[..i + 1]) == MessageWrites(msg[..i]) + WithValue(KeyWrites(msg[i].0), msg[i].1)
  {
    assert msg[..i + 1][..i] == msg[..i];
  }

  /** Once a prefix of the message has thrown, the whole message leaves the page as that
      prefix did. */
  lemma RunStops(ui: map<Target, string>, ids: set<string>, msg: seq<(string, string)>, k: nat)
    requires k <= |msg| && !Run(ui, ids, MessageWrites(msg[..k])).1
    ensures Run(ui, ids, MessageWrites(msg)) == Run(ui, ids, MessageWrites(msg[..k]))
  {
    var done, all := MessageWrites(msg[..k]), MessageWrites(msg);
    MessageWritesPrefix(msg, k);
    assert all == done + all[|done|..];
    RunConcat(ui, ids, done, all[|done|..]);
  }

  /** The writes of a prefix of a message are a prefix of its writes. */
  lemma {:induction false} MessageWritesPrefix(msg: seq<(string, string)>, k: nat)
    requires k <= |msg|
    ensures |MessageWrites(msg[..k])| <= |MessageWrites(msg)|
    ensures MessageWrites(msg)[..|MessageWrites(msg[..k])|] == MessageWrites(msg[..k])
    decreases |msg| - k
  {
    if k == |msg| {
      assert msg[..k] == msg;
    } else {
      MessageWritesPrefix(msg, k + 1);
      MessageWritesSnoc(msg, k);
      var all, longer, shorter := MessageWrites(msg), MessageWrites(msg[..k + 1]), MessageWrites(msg[..k]);
      assert all[..|longer|] == longer;
      assert longer[..|shorter|] == shorter;
      assert all[..|shorter|] == all[..|longer|][..|shorter|];
    }
  }
}

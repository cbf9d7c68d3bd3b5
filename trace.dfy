/** The driver's hardware side effects as an event trace, and, for each driver
    operation, the exact sequence of events it emits. The GPIO backend (pin
    configuration, pin writes, clock enables and busy-wait delays) is replaced by
    appending one event per call. */
module Trace {
  import opened LcdConstants

  /** Identity of a GPIO port (a port's register block in the source). */
  type PortId = nat

  /** The level a pin is driven to. */
  datatype Level = Reset | Set

  datatype Event =
    | PinWrite(port: PortId, pin: bv16, level: Level)   // drive one output pin
    | Delay(ms: nat)                                     // busy-wait
    | ClockEnable(port: PortId)                          // enable a port's clock domain
    | PinInit(port: PortId, pins: bv16)                  // configure pins as push-pull outputs

  /** The pin map of one display: four ports, eight data pin numbers (only the first
      four are set by the driver's data-pin setup) and the three control pin numbers. */
  datatype Wiring = Wiring(
    portData: PortId, portRW: PortId, portEN: PortId, portRS: PortId,
    dataPins: seq<bv16>, ctrlRW: bv16, ctrlEN: bv16, ctrlRS: bv16)

  type PinMap = w: Wiring | |w.dataPins| == 8
    witness Wiring(0, 0, 0, 0, [0, 0, 0, 0, 0, 0, 0, 0], 0, 0, 0)

  /** RW is wired unless its pin number is the sentinel 255. */
  predicate RwWired(pm: PinMap) {
    pm.ctrlRW != RwUnused
  }

  /** The level data pin i is driven to when the driver puts value v on the bus. */
  function BitLevel(v: bv8, i: nat): (l: Level)
    requires i < 8
    ensures l == Set <==> v & ((1 as bv8) << i) != 0
  {
    if (v >> i) & 1 == 1 then Set else Reset
  }

  /** Driving data pins 0 .. n-1 of the port, pin i from bit i of v, in index order. */
  function DataEvents(pm: PinMap, v: bv8, n: nat): (r: seq<Event>)
    requires n <= 8
    ensures |r| == n
    ensures forall i :: 0 <= i < n ==> r[i] == PinWrite(pm.portData, pm.dataPins[i], BitLevel(v, i))
  {
    if n == 0 then [] else DataEvents(pm, v, n - 1) + [PinWrite(pm.portData, pm.dataPins[n - 1], BitLevel(v, n - 1))]
  }

  /** The driver's bus operations: one hardware effect, or a call of one of its
      private members: pulseEnable, write4bits, write8bits, or send with the bus
      width it reads from the function-set byte. */
  datatype Op =
    | Emit(e: Event)
    | Pulse
    | Bus4(v: bv8)
    | Bus8(v: bv8)
    | Transmit(eightBit: bool, v: bv8, mode: Level)

  /** An upper bound on the number of events an operation emits; a call's body
      weighs less than the call. */
  function OpWeight(op: Op): (w: nat)
    ensures w >= 1
  {
    match op
    case Emit(_) => 1
    case Pulse => 7
    case Bus4(_) => 12
    case Bus8(_) => 16
    case Transmit(_, _, _) => 27
  }

  function Weight(ops: seq<Op>): nat {
    if ops == [] then 0 else OpWeight(ops[0]) + Weight(ops[1..])
  }

  lemma {:induction false} WeightAppend(a: seq<Op>, b: seq<Op>)
    ensures Weight(a + b) == Weight(a) + Weight(b)
    decreases |a|
  {
    if a == [] {
      assert a + b == b;
    } else {
      assert (a + b)[0] == a[0] && (a + b)[1..] == a[1..] + b;
      WeightAppend(a[1..], b);
    }
  }

  /** The events es, each as an operation that emits it. */
  function Emits(es: seq<Event>): (r: seq<Op>)
    ensures Weight(r) == |es|
    decreases |es|
  {
    if es == [] then [] else
      assert ([Emit(es[0])] + Emits(es[1..]))[1..] == Emits(es[1..]);
      [Emit(es[0])] + Emits(es[1..])
  }

  /** RS to mode, then RW low when it is wired. */
  function SelectEvents(pm: PinMap, mode: Level): seq<Event> {
    [PinWrite(pm.portRS, pm.ctrlRS, mode)]
    + (if RwWired(pm) then [PinWrite(pm.portRW, pm.ctrlRW, Reset)] else [])
  }

  /** The operations a call performs, in order: pulseEnable drives EN low, high and
      low with 1 ms after each edge; write4bits and write8bits drive data pin i from
      bit i of the value, for the four or eight pins, then pulse; send selects the
      register, then makes one 8-bit write or two 4-bit writes, high nibble first. */
  function Expand(pm: PinMap, op: Op): (r: seq<Op>)
    requires !op.Emit?
    ensures Weight(r) < OpWeight(op)
  {
    match op
    case Pulse =>
      Emits([PinWrite(pm.portEN, pm.ctrlEN, Reset), Delay(1),
             PinWrite(pm.portEN, pm.ctrlEN, Set), Delay(1),
             PinWrite(pm.portEN, pm.ctrlEN, Reset), Delay(1)])
    case Bus4(v) =>
      WeightAppend(Emits(DataEvents(pm, v, 4)), [Pulse]);
      Emits(DataEvents(pm, v, 4)) + [Pulse]
    case Bus8(v) =>
      WeightAppend(Emits(DataEvents(pm, v, 8)), [Pulse]);
      Emits(DataEvents(pm, v, 8)) + [Pulse]
    case Transmit(eightBit, v, mode) =>
      var writes := if eightBit then [Bus8(v)] else [Bus4(v >> 4), Bus4(v)];
      WeightAppend(Emits(SelectEvents(pm, mode)), writes);
      WritesWeight(eightBit, v);
      Emits(SelectEvents(pm, mode)) + writes
  }

  lemma WritesWeight(eightBit: bool, v: bv8)
    ensures Weight(if eightBit then [Bus8(v)] else [Bus4(v >> 4), Bus4(v)]) <= 24
  {
    if eightBit {
      assert [Bus8(v)][1..] == [];
    } else {
      var w := [Bus4(v >> 4), Bus4(v)];
      assert w[1..] == [Bus4(v)] && [Bus4(v)][1..] == [];
      assert Weight([Bus4(v)]) == 12;
    }
  }

  /** The hardware events of running ops in order, each call expanded into the
      operations it performs. */
  function Run(pm: PinMap, ops: seq<Op>): seq<Event>
    decreases Weight(ops)
  {
    if ops == [] then []
    else if ops[0].Emit? then [ops[0].e] + Run(pm, ops[1..])
    else
      WeightAppend(Expand(pm, ops[0]), ops[1..]);
      Run(pm, Expand(pm, ops[0]) + ops[1..])
  }

  /** One enable pulse. */
  function PulseEvents(pm: PinMap): seq<Event> {
    Run(pm, [Pulse])
  }

  /** A 4-bit bus write: the low four bits of v on data pins 0-3, then a pulse. */
  function Write4Events(pm: PinMap, v: bv8): seq<Event> {
    Run(pm, [Bus4(v)])
  }

  /** An 8-bit bus write: all eight bits of v on data pins 0-7, then a pulse. */
  function Write8Events(pm: PinMap, v: bv8): seq<Event> {
    Run(pm, [Bus8(v)])
  }

  /** One transmission of v with RS at mode. */
  function SendEvents(pm: PinMap, eightBit: bool, v: bv8, mode: Level): seq<Event> {
    Run(pm, [Transmit(eightBit, v, mode)])
  }

  /** Running two operation lists one after the other. */
  lemma {:induction false} RunAppend(pm: PinMap, a: seq<Op>, b: seq<Op>)
    ensures Run(pm, a + b) == Run(pm, a) + Run(pm, b)
    decreases Weight(a)
  {
    if a == [] {
      assert a + b == b;
    } else {
      assert (a + b)[0] == a[0] && (a + b)[1..] == a[1..] + b;
      if a[0].Emit? {
        RunAppend(pm, a[1..], b);
      } else {
        var x := Expand(pm, a[0]);
        WeightAppend(x, a[1..]);
        WeightAppend(x + a[1..], b);
        assert x + (a[1..] + b) == (x + a[1..]) + b;
        RunAppend(pm, x + a[1..], b);
      }
    }
  }

  /** Operations that only emit give back their events. */
  lemma {:induction false} RunEmits(pm: PinMap, es: seq<Event>)
    ensures Run(pm, Emits(es)) == es
    decreases |es|
  {
    if es != [] {
      RunEmits(pm, es[1..]);
    }
  }

  /** A single call runs as the operations it performs. */
  lemma RunCall(pm: PinMap, op: Op)
    requires !op.Emit?
    ensures Run(pm, [op]) == Run(pm, Expand(pm, op))
  {
    assert [op][1..] == [];
    assert Expand(pm, op) + [] == Expand(pm, op);
  }

  /** pulseEnable: EN low, 1 ms, EN high, 1 ms, EN low, 1 ms. */
  lemma PulseShape(pm: PinMap)
    ensures PulseEvents(pm) == [PinWrite(pm.portEN, pm.ctrlEN, Reset), Delay(1),
                                PinWrite(pm.portEN, pm.ctrlEN, Set), Delay(1),
                                PinWrite(pm.portEN, pm.ctrlEN, Reset), Delay(1)]
  {
    RunCall(pm, Pulse);
    RunEmits(pm, [PinWrite(pm.portEN, pm.ctrlEN, Reset), Delay(1),
                  PinWrite(pm.portEN, pm.ctrlEN, Set), Delay(1),
                  PinWrite(pm.portEN, pm.ctrlEN, Reset), Delay(1)]);
  }

  /** write4bits: data pins 0-3, then one pulse. */
  lemma Write4Shape(pm: PinMap, v: bv8)
    ensures Write4Events(pm, v) == DataEvents(pm, v, 4) + PulseEvents(pm)
  {
    RunCall(pm, Bus4(v));
    RunAppend(pm, Emits(DataEvents(pm, v, 4)), [Pulse]);
    RunEmits(pm, DataEvents(pm, v, 4));
  }

  /** write8bits: data pins 0-7, then one pulse. */
  lemma Write8Shape(pm: PinMap, v: bv8)
    ensures Write8Events(pm, v) == DataEvents(pm, v, 8) + PulseEvents(pm)
  {
    RunCall(pm, Bus8(v));
    RunAppend(pm, Emits(DataEvents(pm, v, 8)), [Pulse]);
    RunEmits(pm, DataEvents(pm, v, 8));
  }

  /** send: register select, then one 8-bit write or two 4-bit writes, high nibble
      first. */
  lemma SendShape(pm: PinMap, eightBit: bool, v: bv8, mode: Level)
    ensures SendEvents(pm, eightBit, v, mode) == SelectEvents(pm, mode)
      + (if eightBit then Write8Events(pm, v) else Write4Events(pm, v >> 4) + Write4Events(pm, v))
  {
    var writes := if eightBit then [Bus8(v)] else [Bus4(v >> 4), Bus4(v)];
    RunCall(pm, Transmit(eightBit, v, mode));
    RunAppend(pm, Emits(SelectEvents(pm, mode)), writes);
    RunEmits(pm, SelectEvents(pm, mode));
    if !eightBit {
      assert writes == [Bus4(v >> 4)] + [Bus4(v)];
      RunAppend(pm, [Bus4(v >> 4)], [Bus4(v)]);
    }
  }

  /** A command transmission (RS low). */
  function CommandEvents(pm: PinMap, eightBit: bool, v: bv8): seq<Event> {
    SendEvents(pm, eightBit, v, Reset)
  }

  /** A data transmission (RS high). */
  function WriteEvents(pm: PinMap, eightBit: bool, v: bv8): seq<Event> {
    SendEvents(pm, eightBit, v, Set)
  }

  /** One transmission per byte of msg, all with the same RS level, in order. */
  function SendAllEvents(pm: PinMap, eightBit: bool, msg: seq<bv8>, mode: Level): seq<Event>
    decreases |msg|
  {
    if msg == [] then []
    else SendAllEvents(pm, eightBit, msg[..|msg| - 1], mode) + SendEvents(pm, eightBit, msg[|msg| - 1], mode)
  }

  /** Sending one more byte extends the transmissions of a prefix. */
  lemma SendAllSnoc(pm: PinMap, eightBit: bool, msg: seq<bv8>, i: nat, mode: Level)
    requires i < |msg|
    ensures SendAllEvents(pm, eightBit, msg[..i + 1], mode)
      == SendAllEvents(pm, eightBit, msg[..i], mode) + SendEvents(pm, eightBit, msg[i], mode)
  {
    assert msg[..i + 1][..i] == msg[..i];
  }

  /** The clock enables of the driver's port setup. Each port is compared with one
      other port only (RW with data, RS with RW, EN with RS). */
  function ClockEvents(pm: PinMap): seq<Event> {
    [ClockEnable(pm.portData)]
    + (if pm.portRW != pm.portData then [ClockEnable(pm.portRW)] else [])
    + (if pm.portRS != pm.portRW then [ClockEnable(pm.portRS)] else [])
    + (if pm.portEN != pm.portRS then [ClockEnable(pm.portEN)] else [])
  }

  /** Every port gets its clock enabled, the data port first, and no enable is
      repeated back to back; but equal ports that are not compared with each other
      are enabled again. */
  lemma ClockEventsCover(pm: PinMap)
    ensures var r := ClockEvents(pm);
      1 <= |r| <= 4 && r[0] == ClockEnable(pm.portData)
      && ClockEnable(pm.portData) in r && ClockEnable(pm.portRW) in r
      && ClockEnable(pm.portEN) in r && ClockEnable(pm.portRS) in r
      && (forall i :: 0 <= i < |r| ==>
            r[i] in [ClockEnable(pm.portData), ClockEnable(pm.portRW), ClockEnable(pm.portEN), ClockEnable(pm.portRS)])
      && (forall i :: 0 < i < |r| ==> r[i - 1] != r[i])
  {
  }

  /** Two ports shared crosswise (RS on the data port, EN on the RW port) get four
      enables, each port twice: the setup does not deduplicate ports. */
  lemma ClockEventsRepeat(pm: PinMap)
    requires pm.portRS == pm.portData && pm.portEN == pm.portRW && pm.portRW != pm.portData
    ensures ClockEvents(pm)
      == [ClockEnable(pm.portData), ClockEnable(pm.portRW), ClockEnable(pm.portData), ClockEnable(pm.portRW)]
    ensures multiset(ClockEvents(pm))[ClockEnable(pm.portData)] == 2
  {
  }

  /** The data pins configured as outputs: four in 4-bit mode, eight otherwise. */
  function DataMask(pm: PinMap, fourBit: bool): bv16 {
    var low := pm.dataPins[0] | pm.dataPins[1] | pm.dataPins[2] | pm.dataPins[3];
    if fourBit then low
    else low | pm.dataPins[4] | pm.dataPins[5] | pm.dataPins[6] | pm.dataPins[7]
  }

  /** Output configuration of RS, RW (whether or not it is wired), EN and the data pins. */
  function InitEvents(pm: PinMap, fourBit: bool): seq<Event> {
    [PinInit(pm.portRS, pm.ctrlRS), PinInit(pm.portRW, pm.ctrlRW),
     PinInit(pm.portEN, pm.ctrlEN), PinInit(pm.portData, DataMask(pm, fourBit))]
  }

  /** The output configurations appended one at a time. */
  lemma InitSteps(t: seq<Event>, pm: PinMap, fourBit: bool)
    ensures t + [PinInit(pm.portRS, pm.ctrlRS)] + [PinInit(pm.portRW, pm.ctrlRW)]
      + [PinInit(pm.portEN, pm.ctrlEN)] + [PinInit(pm.portData, DataMask(pm, fourBit))]
      == t + InitEvents(pm, fourBit)
  {
    var a, b := PinInit(pm.portRS, pm.ctrlRS), PinInit(pm.portRW, pm.ctrlRW);
    var e, d := PinInit(pm.portEN, pm.ctrlEN), PinInit(pm.portData, DataMask(pm, fourBit));
    AppendAssoc(t, [a], [b]);
    AppendAssoc(t, [a] + [b], [e]);
    AppendAssoc(t, [a] + [b] + [e], [d]);
    assert [a] + [b] + [e] + [d] == InitEvents(pm, fourBit);
  }

  /** RS and EN low, and RW low when it is wired: the bus is ready for a command. */
  function ResetLinesEvents(pm: PinMap): seq<Event> {
    [PinWrite(pm.portRS, pm.ctrlRS, Reset), PinWrite(pm.portEN, pm.ctrlEN, Reset)]
    + (if RwWired(pm) then [PinWrite(pm.portRW, pm.ctrlRW, Reset)] else [])
  }

  /** True when the function-set byte f selects 8-bit transmission. */
  predicate EightBit(f: bv8) {
    f & EightBitMode != 0
  }

  /** The interface handshake as driver operations: nibbles 3, 3, 3, 2 in 4-bit mode,
      three function-set commands in 8-bit mode, with 5 ms and 5 ms (4-bit) or 5 ms
      and 1 ms (8-bit) waits in between. */
  function HandshakeOps(f: bv8): seq<Op> {
    if !EightBit(f) then
      [Bus4(0x03)] + [Emit(Delay(5))] + [Bus4(0x03)] + [Emit(Delay(5))]
      + [Bus4(0x03)] + [Emit(Delay(1))] + [Bus4(0x02)]
    else
      [Transmit(true, FunctionSet | f, Reset)] + [Emit(Delay(5))]
      + [Transmit(true, FunctionSet | f, Reset)] + [Emit(Delay(1))]
      + [Transmit(true, FunctionSet | f, Reset)]
  }

  /** The events of the interface handshake. */
  function HandshakeEvents(pm: PinMap, f: bv8): seq<Event> {
    Run(pm, HandshakeOps(f))
  }

  /** A single emitted event runs as itself. */
  lemma RunEmit(pm: PinMap, e: Event)
    ensures Run(pm, [Emit(e)]) == [e]
  {
    assert [Emit(e)][1..] == [];
  }

  /** The 4-bit handshake written out as bus writes and waits. */
  lemma HandshakeShape4(pm: PinMap, f: bv8)
    requires !EightBit(f)
    ensures HandshakeEvents(pm, f) ==
      Write4Events(pm, 0x03) + [Delay(5)]
      + Write4Events(pm, 0x03) + [Delay(5)]
      + Write4Events(pm, 0x03) + [Delay(1)]
      + Write4Events(pm, 0x02)
  {
    var d5, d1 := Emit(Delay(5)), Emit(Delay(1));
    var a, b := Bus4(0x03), Bus4(0x02);
    RunEmit(pm, Delay(5));
    RunEmit(pm, Delay(1));
    RunAppend(pm, [a] + [d5] + [a] + [d5] + [a] + [d1], [b]);
    RunAppend(pm, [a] + [d5] + [a] + [d5] + [a], [d1]);
    RunAppend(pm, [a] + [d5] + [a] + [d5], [a]);
    RunAppend(pm, [a] + [d5] + [a], [d5]);
    RunAppend(pm, [a] + [d5], [a]);
    RunAppend(pm, [a], [d5]);
  }

  /** The 8-bit handshake written out as commands and waits. */
  lemma HandshakeShape8(pm: PinMap, f: bv8)
    requires EightBit(f)
    ensures HandshakeEvents(pm, f) ==
      CommandEvents(pm, true, FunctionSet | f) + [Delay(5)]
      + CommandEvents(pm, true, FunctionSet | f) + [Delay(1)]
      + CommandEvents(pm, true, FunctionSet | f)
  {
    var d5, d1 := Emit(Delay(5)), Emit(Delay(1));
    var c := Transmit(true, FunctionSet | f, Reset);
    RunEmit(pm, Delay(5));
    RunEmit(pm, Delay(1));
    RunAppend(pm, [c] + [d5] + [c] + [d1], [c]);
    RunAppend(pm, [c] + [d5] + [c], [d1]);
    RunAppend(pm, [c] + [d5], [c]);
    RunAppend(pm, [c], [d5]);
  }

  /** The 4-bit handshake appended one bus write or wait at a time. */
  lemma HandshakeSteps4(t: seq<Event>, pm: PinMap, f: bv8)
    requires !EightBit(f)
    ensures t + Write4Events(pm, 0x03) + [Delay(5)] + Write4Events(pm, 0x03) + [Delay(5)]
      + Write4Events(pm, 0x03) + [Delay(1)] + Write4Events(pm, 0x02)
      == t + HandshakeEvents(pm, f)
  {
    var w, w2 := Write4Events(pm, 0x03), Write4Events(pm, 0x02);
    HandshakeShape4(pm, f);
    AppendAssoc(t, w, [Delay(5)]);
    AppendAssoc(t, w + [Delay(5)], w);
    AppendAssoc(t, w + [Delay(5)] + w, [Delay(5)]);
    AppendAssoc(t, w + [Delay(5)] + w + [Delay(5)], w);
    AppendAssoc(t, w + [Delay(5)] + w + [Delay(5)] + w, [Delay(1)]);
    AppendAssoc(t, w + [Delay(5)] + w + [Delay(5)] + w + [Delay(1)], w2);
  }

  /** The 8-bit handshake appended one command or wait at a time. */
  lemma HandshakeSteps8(t: seq<Event>, pm: PinMap, f: bv8)
    requires EightBit(f)
    ensures t + CommandEvents(pm, true, FunctionSet | f) + [Delay(5)]
      + CommandEvents(pm, true, FunctionSet | f) + [Delay(1)]
      + CommandEvents(pm, true, FunctionSet | f)
      == t + HandshakeEvents(pm, f)
  {
    var c := CommandEvents(pm, true, FunctionSet | f);
    HandshakeShape8(pm, f);
    AppendAssoc(t, c, [Delay(5)]);
    AppendAssoc(t, c + [Delay(5)], c);
    AppendAssoc(t, c + [Delay(5)] + c, [Delay(1)]);
    AppendAssoc(t, c + [Delay(5)] + c + [Delay(1)], c);
  }

  /** The final configuration as driver operations: function set, display on, clear
      (with its 2 ms wait) and left-to-right entry mode. */
  function ConfigureOps(f: bv8): seq<Op> {
    [Transmit(EightBit(f), FunctionSet | f, Reset)]
    + [Transmit(EightBit(f), DisplayControl | DisplayOn, Reset)]
    + [Transmit(EightBit(f), ClearDisplay, Reset)] + [Emit(Delay(2))]
    + [Transmit(EightBit(f), EntryModeSet | EntryLeft | EntryShiftDecrement, Reset)]
  }

  /** The events of the final configuration. */
  function ConfigureEvents(pm: PinMap, f: bv8): seq<Event> {
    Run(pm, ConfigureOps(f))
  }

  /** The configuration written out as commands and the clear wait. */
  lemma ConfigureShape(pm: PinMap, f: bv8)
    ensures ConfigureEvents(pm, f) ==
      CommandEvents(pm, EightBit(f), FunctionSet | f)
      + CommandEvents(pm, EightBit(f), DisplayControl | DisplayOn)
      + CommandEvents(pm, EightBit(f), ClearDisplay) + [Delay(2)]
      + CommandEvents(pm, EightBit(f), EntryModeSet | EntryLeft | EntryShiftDecrement)
  {
    var eb := EightBit(f);
    var c1 := Transmit(eb, FunctionSet | f, Reset);
    var c2 := Transmit(eb, DisplayControl | DisplayOn, Reset);
    var c3 := Transmit(eb, ClearDisplay, Reset);
    var d := Emit(Delay(2));
    var c4 := Transmit(eb, EntryModeSet | EntryLeft | EntryShiftDecrement, Reset);
    RunEmit(pm, Delay(2));
    RunAppend(pm, [c1] + [c2] + [c3] + [d], [c4]);
    RunAppend(pm, [c1] + [c2] + [c3], [d]);
    RunAppend(pm, [c1] + [c2], [c3]);
    RunAppend(pm, [c1], [c2]);
  }

  /** The configuration appended one command at a time. */
  lemma ConfigureSteps(t: seq<Event>, pm: PinMap, f: bv8)
    ensures t + CommandEvents(pm, EightBit(f), FunctionSet | f)
      + CommandEvents(pm, EightBit(f), DisplayControl | DisplayOn)
      + CommandEvents(pm, EightBit(f), ClearDisplay) + [Delay(2)]
      + CommandEvents(pm, EightBit(f), EntryModeSet | EntryLeft | EntryShiftDecrement)
      == t + ConfigureEvents(pm, f)
  {
    var c1 := CommandEvents(pm, EightBit(f), FunctionSet | f);
    var c2 := CommandEvents(pm, EightBit(f), DisplayControl | DisplayOn);
    var c3 := CommandEvents(pm, EightBit(f), ClearDisplay);
    var c4 := CommandEvents(pm, EightBit(f), EntryModeSet | EntryLeft | EntryShiftDecrement);
    ConfigureShape(pm, f);
    AppendAssoc(t, c1, c2);
    AppendAssoc(t, c1 + c2, c3);
    AppendAssoc(t, c1 + c2 + c3, [Delay(2)]);
    AppendAssoc(t, c1 + c2 + c3 + [Delay(2)], c4);
  }

  /** The whole power-on sequence, for the final function-set byte f. */
  function BeginEvents(pm: PinMap, fourBit: bool, f: bv8): seq<Event> {
    ClockEvents(pm) + InitEvents(pm, fourBit) + [Delay(50)] + ResetLinesEvents(pm)
    + HandshakeEvents(pm, f) + ConfigureEvents(pm, f)
  }

  /** The power-on sequence appended one phase at a time. */
  lemma BeginSteps(t: seq<Event>, pm: PinMap, fourBit: bool, f: bv8)
    ensures t + ClockEvents(pm) + InitEvents(pm, fourBit) + [Delay(50)] + ResetLinesEvents(pm)
      + HandshakeEvents(pm, f) + ConfigureEvents(pm, f)
      == t + BeginEvents(pm, fourBit, f)
  {
    var c, i, r := ClockEvents(pm), InitEvents(pm, fourBit), ResetLinesEvents(pm);
    var h, g := HandshakeEvents(pm, f), ConfigureEvents(pm, f);
    AppendAssoc(t, c, i);
    AppendAssoc(t, c + i, [Delay(50)]);
    AppendAssoc(t, c + i + [Delay(50)], r);
    AppendAssoc(t, c + i + [Delay(50)] + r, h);
    AppendAssoc(t, c + i + [Delay(50)] + r + h, g);
  }

  /** Concatenation of traces is associative. */
  lemma AppendAssoc(a: seq<Event>, b: seq<Event>, c: seq<Event>)
    ensures (a + b) + c == a + (b + c)
  {
  }

  /** Driving four data pins from a byte reads only its low nibble. */
  lemma DataEventsLowNibble(pm: PinMap, v: bv8)
    ensures DataEvents(pm, v, 4) == DataEvents(pm, v & 0x0F, 4)
  {
    var a, b := DataEvents(pm, v, 4), DataEvents(pm, v & 0x0F, 4);
    forall i | 0 <= i < 4 ensures a[i] == b[i] {
      assert BitLevel(v, i) == BitLevel(v & 0x0F, i) by {
        assert i == 0 || i == 1 || i == 2 || i == 3;
      }
    }
  }

  /** A 4-bit bus write sends only the low nibble of its argument. */
  lemma Write4LowNibbleOnly(pm: PinMap, v: bv8)
    ensures Write4Events(pm, v) == Write4Events(pm, v & 0x0F)
  {
    Write4Shape(pm, v);
    Write4Shape(pm, v & 0x0F);
    DataEventsLowNibble(pm, v);
  }
}

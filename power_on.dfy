/** What the display controller receives during the driver's power-on sequence:
    nothing while clocks and pins are set up, then the interface handshake, then the
    four configuration commands, all with RS low. */
module PowerOn {
  import opened LcdConstants
  import opened Trace
  import opened Controller

  // ---------------------------------------------------------------------------
  // Extending a trace by one piece

  /** A delay changes no line and causes no sample. */
  lemma {:induction false} AppendDelay(pm: PinMap, a: seq<Event>, ms: nat, l: Lines)
    ensures Strobes(pm, a + [Delay(ms)], l) == Strobes(pm, a, l)
    ensures Settle(pm, a + [Delay(ms)], l) == Settle(pm, a, l)
  {
    StrobesAppend(pm, a, [Delay(ms)], l);
    SettleAppend(pm, a, [Delay(ms)], l);
    QuietEvents(pm, [Delay(ms)], Settle(pm, a, l));
  }

  /** A 4-bit bus write adds one sample carrying the low nibble of v, under the RS
      level the trace had left. */
  lemma {:induction false} AppendWrite4(pm: PinMap, a: seq<Event>, v: bv8, l: Lines)
    requires |l.data| == 4 && Separated(pm, 4)
    ensures var m := Settle(pm, a + Write4Events(pm, v), l);
      Strobes(pm, a + Write4Events(pm, v), l) == Strobes(pm, a, l) + [m]
      && Nibble(m) == v & 0x0F && m.rs == Settle(pm, a, l).rs
  {
    var la := Settle(pm, a, l);
    Write4Shape(pm, v);
    StrobesAppend(pm, a, Write4Events(pm, v), l);
    SettleAppend(pm, a, Write4Events(pm, v), l);
    BusWriteDelivers(pm, v, la);
    NibbleOfBits(Settle(pm, Write4Events(pm, v), la), v);
  }

  /** A transmission adds exactly the byte sent to what the controller has decoded,
      provided the samples so far make whole bytes. */
  lemma {:induction false} AppendSend(pm: PinMap, eightBit: bool, a: seq<Event>, v: bv8, mode: Level,
                                      l: Lines, x: seq<Transfer>)
    requires |l.data| == Width(eightBit) && Separated(pm, Width(eightBit))
    requires |Strobes(pm, a, l)| == (if eightBit then |x| else 2 * |x|)
    requires Decode(Strobes(pm, a, l), eightBit) == x
    ensures var t := a + SendEvents(pm, eightBit, v, mode);
      |Strobes(pm, t, l)| == (if eightBit then |x| + 1 else 2 * |x| + 2)
      && Decode(Strobes(pm, t, l), eightBit) == x + [Transfer(mode, v)]
      && Settle(pm, t, l).rs == mode
  {
    var b := SendEvents(pm, eightBit, v, mode);
    var la := Settle(pm, a, l);
    StrobesAppend(pm, a, b, l);
    SettleAppend(pm, a, b, l);
    SendDelivers(pm, eightBit, v, mode, la);
    DecodeAppend(Strobes(pm, a, l), Strobes(pm, b, la), eightBit);
  }

  // ---------------------------------------------------------------------------
  // The pieces of the power-on sequence

  /** Clock enables, pin configuration and the 50 ms wait drive no pin. */
  lemma {:induction false} SetupIsQuiet(pm: PinMap, fourBit: bool, l: Lines)
    ensures var t := ClockEvents(pm) + InitEvents(pm, fourBit) + [Delay(50)];
      Strobes(pm, t, l) == [] && Settle(pm, t, l) == l
  {
    var c := ClockEvents(pm);
    var t := c + InitEvents(pm, fourBit) + [Delay(50)];
    forall i | 0 <= i < |t| ensures !t[i].PinWrite? {
      if i < |c| {
        assert t[i] == c[i];
      }
    }
    QuietEvents(pm, t, l);
  }

  /** The driver's four-pin data setup leaves data pins 4-7 unconfigured: on a
      separated 8-line wiring, the configured mask shares no bit with any of them,
      although an 8-bit transmission drives them. */
  lemma FourPinSetupMissesHighPins(pm: PinMap)
    requires Separated(pm, 8)
    ensures forall k :: 4 <= k < 8 ==> DataMask(pm, true) & pm.dataPins[k] == 0
  {
    SeparatedMasksDisjoint(pm, 8);
    forall k | 4 <= k < 8
      ensures DataMask(pm, true) & pm.dataPins[k] == 0
    {
      assert pm.dataPins[0] & pm.dataPins[k] == 0;
      assert pm.dataPins[1] & pm.dataPins[k] == 0;
      assert pm.dataPins[2] & pm.dataPins[k] == 0;
      assert pm.dataPins[3] & pm.dataPins[k] == 0;
      MaskMissesPin(pm.dataPins[0], pm.dataPins[1], pm.dataPins[2], pm.dataPins[3], pm.dataPins[k]);
    }
  }

  /** A pin disjoint from each of four masks is disjoint from their union. */
  lemma MaskMissesPin(a: bv16, b: bv16, c: bv16, d: bv16, p: bv16)
    requires a & p == 0 && b & p == 0 && c & p == 0 && d & p == 0
    ensures (a | b | c | d) & p == 0
  { }

  /** Pulling RS, EN and a wired RW low causes no sample and leaves RS low. */
  lemma {:induction false} ResetLinesReady(pm: PinMap, l: Lines)
    requires Separated(pm, |l.data|)
    ensures Strobes(pm, ResetLinesEvents(pm), l) == []
    ensures Settle(pm, ResetLinesEvents(pm), l).rs == Reset
  {
    var t := ResetLinesEvents(pm);
    var rsw := PinWrite(pm.portRS, pm.ctrlRS, Reset);
    var enw := PinWrite(pm.portEN, pm.ctrlEN, Reset);
    var l1 := Step(pm, l, rsw);
    var l2 := Step(pm, l1, enw);
    assert t[0] == rsw && t[1] == enw;
    assert !IsStrobe(pm, rsw) && !IsStrobe(pm, enw) && l2.rs == Reset;
    Unfold(pm, t, 0, l);
    Unfold(pm, t, 1, l1);
    if RwWired(pm) {
      var rww := PinWrite(pm.portRW, pm.ctrlRW, Reset);
      assert t[2] == rww && !IsStrobe(pm, rww) && Step(pm, l2, rww).rs == Reset;
      Unfold(pm, t, 2, l2);
      assert t[3..] == [];
    } else {
      assert t[2..] == [];
    }
    assert t[0..] == t;
  }

  /** A transmission followed by a wait: as for the transmission alone. */
  lemma {:induction false} AppendSendDelay(pm: PinMap, eightBit: bool, a: seq<Event>, v: bv8, mode: Level,
                                           ms: nat, l: Lines, x: seq<Transfer>)
    requires |l.data| == Width(eightBit) && Separated(pm, Width(eightBit))
    requires |Strobes(pm, a, l)| == (if eightBit then |x| else 2 * |x|)
    requires Decode(Strobes(pm, a, l), eightBit) == x
    ensures var t := a + SendEvents(pm, eightBit, v, mode) + [Delay(ms)];
      |Strobes(pm, t, l)| == (if eightBit then |x| + 1 else 2 * |x| + 2)
      && Decode(Strobes(pm, t, l), eightBit) == x + [Transfer(mode, v)]
      && Settle(pm, t, l).rs == mode
  {
    AppendSend(pm, eightBit, a, v, mode, l, x);
    AppendDelay(pm, a + SendEvents(pm, eightBit, v, mode), ms, l);
  }

  /** Operations that are 4-bit bus writes or waits. */
  predicate NibbleOps(ops: seq<Op>) {
    forall i :: 0 <= i < |ops| ==> ops[i].Bus4? || (ops[i].Emit? && ops[i].e.Delay?)
  }

  /** The nibbles the 4-bit writes of ops put on the bus, in order. */
  function NibbleValues(ops: seq<Op>): (r: seq<bv8>)
    ensures |r| <= |ops|
    decreases |ops|
  {
    if ops == [] then []
    else
      NibbleValues(ops[..|ops| - 1])
      + (if ops[|ops| - 1].Bus4? then [ops[|ops| - 1].v & 0x0F] else [])
  }

  /** Samples s carry the nibbles vals, in order, all latched under RS level rs. */
  predicate NibblesUnder(s: seq<Lines>, vals: seq<bv8>, rs: Level) {
    |s| == |vals| && forall i :: 0 <= i < |s| ==> Nibble(s[i]) == vals[i] && s[i].rs == rs
  }

  /** One 4-bit write or wait after a trace whose samples carry vals: a write adds its
      nibble, a wait adds nothing, and RS keeps its level. */
  lemma {:induction false} NibbleOpStep(pm: PinMap, a: seq<Event>, op: Op, vals: seq<bv8>, l: Lines)
    requires op.Bus4? || (op.Emit? && op.e.Delay?)
    requires |l.data| == 4 && Separated(pm, 4)
    requires NibblesUnder(Strobes(pm, a, l), vals, l.rs) && Settle(pm, a, l).rs == l.rs
    ensures NibblesUnder(Strobes(pm, a + Run(pm, [op]), l),
                         vals + (if op.Bus4? then [op.v & 0x0F] else []), l.rs)
    ensures Settle(pm, a + Run(pm, [op]), l).rs == l.rs
  {
    if op.Bus4? {
      RunCall(pm, op);
      Write4Shape(pm, op.v);
      AppendWrite4(pm, a, op.v, l);
      var s := Strobes(pm, a, l);
      var m := Settle(pm, a + Write4Events(pm, op.v), l);
      assert forall i :: 0 <= i < |s| ==> (s + [m])[i] == s[i];
    } else {
      RunEmit(pm, op.e);
      AppendDelay(pm, a, op.e.ms, l);
      assert vals + [] == vals;
    }
  }

  /** 4-bit writes and waits: one sample per write, carrying its nibble, all under
      the RS level the lines had, which they leave alone. */
  lemma {:induction false} NibbleOpsDeliver(pm: PinMap, ops: seq<Op>, l: Lines)
    requires NibbleOps(ops)
    requires |l.data| == 4 && Separated(pm, 4)
    ensures NibblesUnder(Strobes(pm, Run(pm, ops), l), NibbleValues(ops), l.rs)
    ensures Settle(pm, Run(pm, ops), l).rs == l.rs
    decreases |ops|
  {
    if ops != [] {
      var init, op := ops[..|ops| - 1], ops[|ops| - 1];
      assert init + [op] == ops;
      assert NibbleOps(init) by {
        assert forall i :: 0 <= i < |init| ==> init[i] == ops[i];
      }
      NibbleOpsDeliver(pm, init, l);
      RunAppend(pm, init, [op]);
      NibbleOpStep(pm, Run(pm, init), op, NibbleValues(init), l);
    }
  }

  /** The 4-bit handshake writes nibbles 3, 3, 3, 2 and otherwise only waits. */
  lemma HandshakeNibbles(f: bv8)
    requires !EightBit(f)
    ensures NibbleOps(HandshakeOps(f)) && NibbleValues(HandshakeOps(f)) == [0x03, 0x03, 0x03, 0x02]
  {
    var d5, d1 := Emit(Delay(5)), Emit(Delay(1));
    var o1 := [Bus4(0x03)];
    var o2 := o1 + [d5];
    var o3 := o2 + [Bus4(0x03)];
    var o4 := o3 + [d5];
    var o5 := o4 + [Bus4(0x03)];
    var o6 := o5 + [d1];
    var o7 := o6 + [Bus4(0x02)];
    assert o7 == HandshakeOps(f);
    assert o1[..0] == [] && o2[..1] == o1 && o3[..2] == o2 && o4[..3] == o3;
    assert o5[..4] == o4 && o6[..5] == o5 && o7[..6] == o6;
    assert NibbleValues(o1) == [0x03];
    assert NibbleValues(o3) == [0x03, 0x03];
    assert NibbleValues(o5) == [0x03, 0x03, 0x03];
    assert NibbleValues(o7) == [0x03, 0x03, 0x03, 0x02];
  }

  /** The 4-bit handshake: four samples with nibbles 3, 3, 3, 2, all under the RS
      level the lines had, which it leaves alone. */
  lemma HandshakeDelivers4(pm: PinMap, f: bv8, l: Lines)
    requires !EightBit(f)
    requires |l.data| == 4 && Separated(pm, 4)
    ensures var s := Strobes(pm, HandshakeEvents(pm, f), l);
      |s| == 4
      && Nibble(s[0]) == 0x03 && Nibble(s[1]) == 0x03 && Nibble(s[2]) == 0x03 && Nibble(s[3]) == 0x02
      && (forall i :: 0 <= i < 4 ==> s[i].rs == l.rs)
    ensures Settle(pm, HandshakeEvents(pm, f), l).rs == l.rs
  {
    HandshakeNibbles(f);
    NibbleOpsDeliver(pm, HandshakeOps(f), l);
  }

  /** The 8-bit handshake: the function-set byte three times, as commands. */
  lemma {:induction false} HandshakeDelivers8(pm: PinMap, f: bv8, l: Lines)
    requires EightBit(f)
    requires |l.data| == 8 && Separated(pm, 8)
    ensures var s := Strobes(pm, HandshakeEvents(pm, f), l);
      |s| == 3
      && Decode(s, true) == [Transfer(Reset, 0x20 | f), Transfer(Reset, 0x20 | f), Transfer(Reset, 0x20 | f)]
    ensures Settle(pm, HandshakeEvents(pm, f), l).rs == Reset
  {
    var c := CommandEvents(pm, true, FunctionSet | f);
    var t := Transfer(Reset, FunctionSet | f);
    var p1 := c + [Delay(5)];
    var p2 := p1 + c + [Delay(1)];
    var p3 := p2 + c;
    HandshakeShape8(pm, f);
    assert [] + c == c;
    AppendSendDelay(pm, true, [], FunctionSet | f, Reset, 5, l, []);
    assert [] + [t] == [t];
    AppendSendDelay(pm, true, p1, FunctionSet | f, Reset, 1, l, [t]);
    assert [t] + [t] == [t, t];
    AppendSend(pm, true, p2, FunctionSet | f, Reset, l, [t, t]);
    assert [t, t] + [t] == [t, t, t];
  }

  /** The configuration bytes, written out. */
  lemma ConfigureBytes(f: bv8)
    ensures [Transfer(Reset, FunctionSet | f)] + [Transfer(Reset, DisplayControl | DisplayOn)]
      + [Transfer(Reset, ClearDisplay)] + [Transfer(Reset, EntryModeSet | EntryLeft | EntryShiftDecrement)]
      == [Transfer(Reset, 0x20 | f), Transfer(Reset, 0x0C), Transfer(Reset, 0x01), Transfer(Reset, 0x06)]
  {
  }

  /** The configuration commands: function set, display on (0x0C), clear (0x01) and
      entry mode (0x06), all as commands, received as exactly those bytes. */
  lemma {:induction false} ConfigureDelivers(pm: PinMap, f: bv8, l: Lines)
    requires |l.data| == Width(EightBit(f)) && Separated(pm, Width(EightBit(f)))
    ensures var s := Strobes(pm, ConfigureEvents(pm, f), l);
      |s| == (if EightBit(f) then 4 else 8)
      && Decode(s, EightBit(f))
         == [Transfer(Reset, 0x20 | f), Transfer(Reset, 0x0C), Transfer(Reset, 0x01), Transfer(Reset, 0x06)]
  {
    var eb := EightBit(f);
    var c1 := CommandEvents(pm, eb, FunctionSet | f);
    var x1 := [Transfer(Reset, FunctionSet | f)];
    SendDelivers(pm, eb, FunctionSet | f, Reset, l);
    var p2 := c1 + CommandEvents(pm, eb, DisplayControl | DisplayOn);
    var x2 := x1 + [Transfer(Reset, DisplayControl | DisplayOn)];
    AppendSend(pm, eb, c1, DisplayControl | DisplayOn, Reset, l, x1);
    var p3 := p2 + CommandEvents(pm, eb, ClearDisplay);
    var x3 := x2 + [Transfer(Reset, ClearDisplay)];
    AppendSend(pm, eb, p2, ClearDisplay, Reset, l, x2);
    var p3d := p3 + [Delay(2)];
    AppendDelay(pm, p3, 2, l);
    var p4 := p3d + CommandEvents(pm, eb, EntryModeSet | EntryLeft | EntryShiftDecrement);
    AppendSend(pm, eb, p3d, EntryModeSet | EntryLeft | EntryShiftDecrement, Reset, l, x3);
    ConfigureBytes(f);
    ConfigureShape(pm, f);
  }

  // ---------------------------------------------------------------------------
  // The whole sequence

  /** Setup plus pulling the lines low: no sample, RS low. */
  lemma {:induction false} PreambleReady(pm: PinMap, fourBit: bool, l: Lines)
    requires Separated(pm, |l.data|)
    ensures var t := ClockEvents(pm) + InitEvents(pm, fourBit) + [Delay(50)] + ResetLinesEvents(pm);
      Strobes(pm, t, l) == [] && Settle(pm, t, l).rs == Reset
  {
    var p := ClockEvents(pm) + InitEvents(pm, fourBit) + [Delay(50)];
    SetupIsQuiet(pm, fourBit, l);
    StrobesAppend(pm, p, ResetLinesEvents(pm), l);
    SettleAppend(pm, p, ResetLinesEvents(pm), l);
    ResetLinesReady(pm, l);
  }

  /** Power-on in 4-bit mode: twelve samples; the first four carry the nibbles
      3, 3, 3, 2 with RS low, and the remaining eight decode to the four
      configuration commands. */
  lemma {:induction false} BeginDelivers4(pm: PinMap, fourBit: bool, f: bv8, l: Lines)
    requires !EightBit(f)
    requires |l.data| == 4 && Separated(pm, 4)
    ensures var s := Strobes(pm, BeginEvents(pm, fourBit, f), l);
      |s| == 12
      && Nibble(s[0]) == 0x03 && Nibble(s[1]) == 0x03 && Nibble(s[2]) == 0x03 && Nibble(s[3]) == 0x02
      && (forall i :: 0 <= i < 4 ==> s[i].rs == Reset)
      && Decode(s[4..], false)
         == [Transfer(Reset, 0x20 | f), Transfer(Reset, 0x0C), Transfer(Reset, 0x01), Transfer(Reset, 0x06)]
  {
    var p1 := ClockEvents(pm) + InitEvents(pm, fourBit) + [Delay(50)] + ResetLinesEvents(pm);
    var h := HandshakeEvents(pm, f);
    var p2 := p1 + h;
    assert BeginEvents(pm, fourBit, f) == p2 + ConfigureEvents(pm, f);
    PreambleReady(pm, fourBit, l);
    var l1 := Settle(pm, p1, l);
    StrobesAppend(pm, p1, h, l);
    SettleAppend(pm, p1, h, l);
    HandshakeDelivers4(pm, f, l1);
    var hs := Strobes(pm, p2, l);
    var l2 := Settle(pm, p2, l);
    assert hs == Strobes(pm, h, l1) && l2.rs == Reset;
    StrobesAppend(pm, p2, ConfigureEvents(pm, f), l);
    ConfigureDelivers(pm, f, l2);
    var s := Strobes(pm, BeginEvents(pm, fourBit, f), l);
    assert s == hs + Strobes(pm, ConfigureEvents(pm, f), l2);
    assert s[4..] == Strobes(pm, ConfigureEvents(pm, f), l2);
  }

  /** The commands of the 8-bit power-on sequence, written out. */
  lemma EightBitBytes(f: bv8)
    ensures var t := Transfer(Reset, 0x20 | f);
      [t, t, t] + [t, Transfer(Reset, 0x0C), Transfer(Reset, 0x01), Transfer(Reset, 0x06)]
      == [t, t, t, t, Transfer(Reset, 0x0C), Transfer(Reset, 0x01), Transfer(Reset, 0x06)]
  {
  }

  /** Power-on in 8-bit mode: seven commands, the function-set byte four times, then
      display on (0x0C), clear (0x01) and entry mode (0x06). */
  lemma {:induction false} BeginDelivers8(pm: PinMap, fourBit: bool, f: bv8, l: Lines)
    requires EightBit(f)
    requires |l.data| == 8 && Separated(pm, 8)
    ensures var s := Strobes(pm, BeginEvents(pm, fourBit, f), l);
      |s| == 7
      && Decode(s, true)
         == [Transfer(Reset, 0x20 | f), Transfer(Reset, 0x20 | f), Transfer(Reset, 0x20 | f),
             Transfer(Reset, 0x20 | f), Transfer(Reset, 0x0C), Transfer(Reset, 0x01), Transfer(Reset, 0x06)]
  {
    var p1 := ClockEvents(pm) + InitEvents(pm, fourBit) + [Delay(50)] + ResetLinesEvents(pm);
    var h := HandshakeEvents(pm, f);
    var p2 := p1 + h;
    assert BeginEvents(pm, fourBit, f) == p2 + ConfigureEvents(pm, f);
    PreambleReady(pm, fourBit, l);
    var l1 := Settle(pm, p1, l);
    StrobesAppend(pm, p1, h, l);
    SettleAppend(pm, p1, h, l);
    HandshakeDelivers8(pm, f, l1);
    var hs := Strobes(pm, p2, l);
    var l2 := Settle(pm, p2, l);
    assert hs == Strobes(pm, h, l1) && l2.rs == Reset;
    StrobesAppend(pm, p2, ConfigureEvents(pm, f), l);
    ConfigureDelivers(pm, f, l2);
    var cs := Strobes(pm, ConfigureEvents(pm, f), l2);
    assert Strobes(pm, BeginEvents(pm, fourBit, f), l) == hs + cs;
    DecodeAppend(hs, cs, true);
    EightBitBytes(f);
  }
}

/** What the display controller receives. The controller's RS line and its data
    lines are wired to the MCU pins of a pin map; it watches the trace, keeps the
    level last driven on each of its lines, and samples them whenever EN is driven
    high. In 4-bit mode its four data lines are the MCU's data pins 0-3, and two
    samples make one byte, high nibble first; in 8-bit mode they are data pins 0-7,
    and each sample is one byte. This receiver is the independent reference against
    which the driver's transmissions are proved correct. */
module Controller {
  import opened LcdConstants
  import opened Trace

  /** The levels on the controller's RS line and its data lines (4 or 8 of them). */
  datatype LineLevels = LineLevels(rs: Level, data: seq<Level>)

  type Lines = l: LineLevels | |l.data| == 4 || |l.data| == 8
    witness LineLevels(Reset, [Reset, Reset, Reset, Reset])

  /** A byte the controller latched, with the RS level it was latched under. */
  datatype Transfer = Transfer(rs: Level, value: bv8)

  /** Number of data lines in use for the given bus width. */
  function Width(eightBit: bool): nat {
    if eightBit then 8 else 4
  }

  /** EN driven high: the controller samples its lines. */
  predicate IsStrobe(pm: PinMap, e: Event) {
    e == PinWrite(pm.portEN, pm.ctrlEN, Set)
  }

  /** The effect of one event on the controller's lines: a pin write changes every
      line wired to that pin; no other event changes a line. */
  function Step(pm: PinMap, l: Lines, e: Event): (r: Lines)
    ensures |r.data| == |l.data|
  {
    match e
    case PinWrite(port, pin, level) =>
      LineLevels(
        if port == pm.portRS && pin == pm.ctrlRS then level else l.rs,
        seq(|l.data|, i requires 0 <= i < |l.data| =>
          if port == pm.portData && pin == pm.dataPins[i] then level else l.data[i]))
    case _ => l
  }

  /** The lines after a whole trace. */
  function Settle(pm: PinMap, t: seq<Event>, l: Lines): (r: Lines)
    ensures |r.data| == |l.data|
    decreases |t|
  {
    if t == [] then l else Settle(pm, t[1..], Step(pm, l, t[0]))
  }

  /** The samples taken during a trace, one per EN-high write, in order. */
  function Strobes(pm: PinMap, t: seq<Event>, l: Lines): (r: seq<Lines>)
    ensures forall i :: 0 <= i < |r| ==> |r[i].data| == |l.data|
    decreases |t|
  {
    if t == [] then []
    else
      var l' := Step(pm, l, t[0]);
      (if IsStrobe(pm, t[0]) then [l'] else []) + Strobes(pm, t[1..], l')
  }

  function LevelBit(x: Level): bv8 {
    if x == Set then 1 else 0
  }

  /** The value on data lines 0-3. */
  function Nibble(l: Lines): bv8 {
    LevelBit(l.data[0]) | (LevelBit(l.data[1]) << 1) | (LevelBit(l.data[2]) << 2) | (LevelBit(l.data[3]) << 3)
  }

  /** Data line i; a line the controller does not have reads low. */
  function Line(l: Lines, i: nat): Level {
    if i < |l.data| then l.data[i] else Reset
  }

  /** The value on data lines 0-7. */
  function Octet(l: Lines): bv8 {
    Nibble(l) | (LevelBit(Line(l, 4)) << 4) | (LevelBit(Line(l, 5)) << 5)
      | (LevelBit(Line(l, 6)) << 6) | (LevelBit(Line(l, 7)) << 7)
  }

  /** The bytes the controller assembles from its samples: one per sample in 8-bit
      mode, one per pair of samples (high nibble first) in 4-bit mode. An unpaired
      last nibble is still pending and yields nothing. */
  function Decode(s: seq<Lines>, eightBit: bool): (r: seq<Transfer>)
    ensures |r| == if eightBit then |s| else |s| / 2
    decreases |s|
  {
    if eightBit then
      if s == [] then [] else [Transfer(s[0].rs, Octet(s[0]))] + Decode(s[1..], true)
    else
      if |s| < 2 then [] else [Transfer(s[0].rs, (Nibble(s[0]) << 4) | Nibble(s[1]))] + Decode(s[2..], false)
  }

  /** A pin mask naming exactly one pin: a 16-bit mask with a single bit set. */
  predicate OnePin(p: bv16) {
    p != 0 && p & (p - 1) == 0
  }

  /** The electrical condition for a faithful transfer over `width` data lines: each
      controller line is wired to one MCU pin, so EN, RS, a wired RW and those data
      pins are single-bit masks; EN, RS and the data pins are pairwise different
      pins, and a wired RW pin is not the RS pin. A write then reaches a line exactly
      when its mask is that line's pin, which is how Step reads it. */
  predicate Separated(pm: PinMap, width: nat) {
    width <= 8
    && OnePin(pm.ctrlEN) && OnePin(pm.ctrlRS) && (RwWired(pm) ==> OnePin(pm.ctrlRW))
    && (forall i :: 0 <= i < width ==> OnePin(pm.dataPins[i]))
    && (pm.portEN != pm.portRS || pm.ctrlEN != pm.ctrlRS)
    && (RwWired(pm) ==> pm.portRW != pm.portRS || pm.ctrlRW != pm.ctrlRS)
    && (forall i :: 0 <= i < width ==>
          (pm.portData != pm.portEN || pm.dataPins[i] != pm.ctrlEN)
          && (pm.portData != pm.portRS || pm.dataPins[i] != pm.ctrlRS))
    && (forall i, j :: 0 <= i < j < width ==> pm.dataPins[i] != pm.dataPins[j])
  }

  /** Two different single pins share no bit of their masks. */
  lemma OnePinsDisjoint(p: bv16, q: bv16)
    requires OnePin(p) && OnePin(q) && p != q
    ensures p & q == 0
  {
  }

  /** Under Separated, the masks of any two of the controller's lines on one port are
      disjoint, so writing one line's mask drives no other line. */
  lemma SeparatedMasksDisjoint(pm: PinMap, width: nat)
    requires Separated(pm, width)
    ensures pm.portEN == pm.portRS ==> pm.ctrlEN & pm.ctrlRS == 0
    ensures RwWired(pm) && pm.portRW == pm.portRS ==> pm.ctrlRW & pm.ctrlRS == 0
    ensures forall i :: 0 <= i < width && pm.portData == pm.portEN ==> pm.dataPins[i] & pm.ctrlEN == 0
    ensures forall i :: 0 <= i < width && pm.portData == pm.portRS ==> pm.dataPins[i] & pm.ctrlRS == 0
    ensures forall i, j :: 0 <= i < j < width ==> pm.dataPins[i] & pm.dataPins[j] == 0
  {
    if pm.portEN == pm.portRS {
      OnePinsDisjoint(pm.ctrlEN, pm.ctrlRS);
    }
    if RwWired(pm) && pm.portRW == pm.portRS {
      OnePinsDisjoint(pm.ctrlRW, pm.ctrlRS);
    }
    forall i | 0 <= i < width && pm.portData == pm.portEN ensures pm.dataPins[i] & pm.ctrlEN == 0 {
      OnePinsDisjoint(pm.dataPins[i], pm.ctrlEN);
    }
    forall i | 0 <= i < width && pm.portData == pm.portRS ensures pm.dataPins[i] & pm.ctrlRS == 0 {
      OnePinsDisjoint(pm.dataPins[i], pm.ctrlRS);
    }
    forall i, j | 0 <= i < j < width ensures pm.dataPins[i] & pm.dataPins[j] == 0 {
      OnePinsDisjoint(pm.dataPins[i], pm.dataPins[j]);
    }
  }

  /** The transfers a sequence of bytes sent under one RS level should produce. */
  function Transfers(msg: seq<bv8>, mode: Level): (r: seq<Transfer>)
    ensures |r| == |msg| && forall i :: 0 <= i < |msg| ==> r[i] == Transfer(mode, msg[i])
  {
    seq(|msg|, i requires 0 <= i < |msg| => Transfer(mode, msg[i]))
  }

  // ---------------------------------------------------------------------------
  // Composition of traces

  lemma {:induction false} SettleAppend(pm: PinMap, a: seq<Event>, b: seq<Event>, l: Lines)
    ensures Settle(pm, a + b, l) == Settle(pm, b, Settle(pm, a, l))
    decreases |a|
  {
    if a == [] {
      assert a + b == b;
    } else {
      assert (a + b)[0] == a[0] && (a + b)[1..] == a[1..] + b;
      SettleAppend(pm, a[1..], b, Step(pm, l, a[0]));
    }
  }

  /** The samples of a concatenation are those of the first part followed by those of
      the second part, started from the lines the first part left. */
  lemma {:induction false} StrobesAppend(pm: PinMap, a: seq<Event>, b: seq<Event>, l: Lines)
    ensures Strobes(pm, a + b, l) == Strobes(pm, a, l) + Strobes(pm, b, Settle(pm, a, l))
    decreases |a|
  {
    if a == [] {
      assert a + b == b;
    } else {
      assert (a + b)[1..] == a[1..] + b;
      StrobesAppend(pm, a[1..], b, Step(pm, l, a[0]));
    }
  }

  /** Decoding a concatenation of whole bytes' worth of samples. */
  lemma {:induction false} DecodeAppend(s: seq<Lines>, u: seq<Lines>, eightBit: bool)
    requires !eightBit ==> |s| % 2 == 0
    ensures Decode(s + u, eightBit) == Decode(s, eightBit) + Decode(u, eightBit)
  {
    if eightBit {
      OctetsAppend(s, u);
    } else {
      NibblePairsAppend(s, u);
    }
  }

  /** DecodeAppend in 8-bit mode. */
  lemma {:induction false} OctetsAppend(s: seq<Lines>, u: seq<Lines>)
    ensures Decode(s + u, true) == Decode(s, true) + Decode(u, true)
    decreases |s|
  {
    if s == [] {
      assert s + u == u;
    } else {
      assert (s + u)[0] == s[0] && (s + u)[1..] == s[1..] + u;
      OctetsAppend(s[1..], u);
    }
  }

  /** DecodeAppend in 4-bit mode. */
  lemma {:induction false} NibblePairsAppend(s: seq<Lines>, u: seq<Lines>)
    requires |s| % 2 == 0
    ensures Decode(s + u, false) == Decode(s, false) + Decode(u, false)
    decreases |s|
  {
    if s == [] {
      assert s + u == u;
    } else {
      assert (s + u)[2..] == s[2..] + u;
      NibblePairsAppend(s[2..], u);
    }
  }

  /** One step of the receiver at position k of a trace. */
  lemma {:induction false} Unfold(pm: PinMap, t: seq<Event>, k: nat, l: Lines)
    requires k < |t|
    ensures Settle(pm, t[k..], l) == Settle(pm, t[k + 1..], Step(pm, l, t[k]))
    ensures Strobes(pm, t[k..], l)
      == (if IsStrobe(pm, t[k]) then [Step(pm, l, t[k])] else []) + Strobes(pm, t[k + 1..], Step(pm, l, t[k]))
  {
    assert t[k..][0] == t[k] && t[k..][1..] == t[k + 1..];
  }

  /** Events that drive no pin leave the lines alone and cause no sample. */
  lemma {:induction false} QuietEvents(pm: PinMap, t: seq<Event>, l: Lines)
    requires forall i :: 0 <= i < |t| ==> !t[i].PinWrite?
    ensures Strobes(pm, t, l) == [] && Settle(pm, t, l) == l
    decreases |t|
  {
    if t != [] {
      QuietEvents(pm, t[1..], l);
    }
  }

  // ---------------------------------------------------------------------------
  // Single bus writes

  lemma {:induction false} NibbleOfBits(l: Lines, v: bv8)
    requires forall i :: 0 <= i < 4 ==> l.data[i] == BitLevel(v, i)
    ensures Nibble(l) == v & 0x0F
  {
    assert l.data[0] == BitLevel(v, 0) && l.data[1] == BitLevel(v, 1);
    assert l.data[2] == BitLevel(v, 2) && l.data[3] == BitLevel(v, 3);
  }

  lemma {:induction false} OctetOfBits(l: Lines, v: bv8)
    requires |l.data| == 8
    requires forall i :: 0 <= i < 8 ==> l.data[i] == BitLevel(v, i)
    ensures Octet(l) == v
  {
    NibbleOfBits(l, v);
    assert l.data[4] == BitLevel(v, 4) && l.data[5] == BitLevel(v, 5);
    assert l.data[6] == BitLevel(v, 6) && l.data[7] == BitLevel(v, 7);
  }

  /** A write to a pin none of the controller's lines is wired to changes nothing. */
  lemma {:induction false} UnwiredWrite(pm: PinMap, l: Lines, port: PortId, pin: bv16, level: Level)
    requires port != pm.portRS || pin != pm.ctrlRS
    requires forall i :: 0 <= i < |l.data| ==> port != pm.portData || pin != pm.dataPins[i]
    ensures Step(pm, l, PinWrite(port, pin, level)) == l
  {
    var r := Step(pm, l, PinWrite(port, pin, level));
    assert r.data == l.data;
  }

  /** Driving data pins 0 .. n-1 puts bit i of v on data line i, leaves RS alone and
      causes no sample. */
  lemma {:induction false} DataEventsDrive(pm: PinMap, v: bv8, n: nat, l: Lines)
    requires n <= |l.data| && Separated(pm, |l.data|)
    ensures Strobes(pm, DataEvents(pm, v, n), l) == []
    ensures Settle(pm, DataEvents(pm, v, n), l).rs == l.rs
    ensures forall i :: 0 <= i < n ==> Settle(pm, DataEvents(pm, v, n), l).data[i] == BitLevel(v, i)
  {
    if n > 0 {
      var a := DataEvents(pm, v, n - 1);
      var e := PinWrite(pm.portData, pm.dataPins[n - 1], BitLevel(v, n - 1));
      assert DataEvents(pm, v, n) == a + [e];
      DataEventsDrive(pm, v, n - 1, l);
      var m := Settle(pm, a, l);
      StrobesAppend(pm, a, [e], l);
      SettleAppend(pm, a, [e], l);
      assert Strobes(pm, [e], m) == [] by {
        assert !IsStrobe(pm, e);
      }
      assert Settle(pm, [e], m) == Step(pm, m, e);
      forall i | 0 <= i < n - 1 ensures Step(pm, m, e).data[i] == BitLevel(v, i) {
        assert pm.dataPins[i] != pm.dataPins[n - 1];
      }
    }
  }

  /** An enable pulse samples the lines once, as they are, and changes none. */
  lemma {:induction false} PulseSamples(pm: PinMap, l: Lines)
    requires Separated(pm, |l.data|)
    ensures Strobes(pm, PulseEvents(pm), l) == [l]
    ensures Settle(pm, PulseEvents(pm), l) == l
  {
    PulseShape(pm);
    UnwiredWrite(pm, l, pm.portEN, pm.ctrlEN, Reset);
    UnwiredWrite(pm, l, pm.portEN, pm.ctrlEN, Set);
    var t := PulseEvents(pm);
    Unfold(pm, t, 5, l);
    Unfold(pm, t, 4, l);
    Unfold(pm, t, 3, l);
    Unfold(pm, t, 2, l);
    Unfold(pm, t, 1, l);
    Unfold(pm, t, 0, l);
    assert t[6..] == [] && t[0..] == t;
  }

  /** A bus write over all the controller's data lines is sampled exactly once,
      with bit i of v on data line i and RS as it was. */
  lemma {:induction false} BusWriteDelivers(pm: PinMap, v: bv8, l: Lines)
    requires Separated(pm, |l.data|)
    ensures var t := DataEvents(pm, v, |l.data|) + PulseEvents(pm);
      |Strobes(pm, t, l)| == 1
      && Strobes(pm, t, l)[0] == Settle(pm, t, l)
      && Settle(pm, t, l).rs == l.rs
      && forall i :: 0 <= i < |l.data| ==> Settle(pm, t, l).data[i] == BitLevel(v, i)
  {
    var d := DataEvents(pm, v, |l.data|);
    DataEventsDrive(pm, v, |l.data|, l);
    StrobesAppend(pm, d, PulseEvents(pm), l);
    SettleAppend(pm, d, PulseEvents(pm), l);
    PulseSamples(pm, Settle(pm, d, l));
  }

  /** Lines after RS is driven to mode and RW (if wired) is driven low. */
  lemma {:induction false} SelectRegister(pm: PinMap, mode: Level, l: Lines)
    requires Separated(pm, |l.data|)
    ensures Strobes(pm, SelectEvents(pm, mode), l) == []
    ensures Settle(pm, SelectEvents(pm, mode), l).rs == mode
  {
    var rsw := PinWrite(pm.portRS, pm.ctrlRS, mode);
    var t := SelectEvents(pm, mode);
    var l1 := Step(pm, l, rsw);
    assert !IsStrobe(pm, rsw) && l1.rs == mode;
    Unfold(pm, t, 0, l);
    if RwWired(pm) {
      var rww := PinWrite(pm.portRW, pm.ctrlRW, Reset);
      assert t[1] == rww && !IsStrobe(pm, rww) && Step(pm, l1, rww).rs == mode;
      Unfold(pm, t, 1, l1);
      assert t[2..] == [];
    } else {
      assert t[1..] == [];
    }
    assert t[0..] == t;
  }

  /** Two 4-bit bus writes give two samples, v >> 4 then the low nibble of v, which
      decode to v. */
  lemma {:induction false} NibblePairDelivers(pm: PinMap, v: bv8, l: Lines)
    requires |l.data| == 4 && Separated(pm, 4)
    ensures var t := Write4Events(pm, v >> 4) + Write4Events(pm, v);
      var s := Strobes(pm, t, l);
      |s| == 2 && s[0].rs == l.rs && s[1].rs == l.rs
      && Nibble(s[0]) == v >> 4 && Nibble(s[1]) == v & 0x0F
      && Decode(s, false) == [Transfer(l.rs, v)]
      && Settle(pm, t, l).rs == l.rs
  {
    var hi, lo := Write4Events(pm, v >> 4), Write4Events(pm, v);
    Write4Shape(pm, v >> 4);
    Write4Shape(pm, v);
    StrobesAppend(pm, hi, lo, l);
    SettleAppend(pm, hi, lo, l);
    BusWriteDelivers(pm, v >> 4, l);
    var l2 := Settle(pm, hi, l);
    BusWriteDelivers(pm, v, l2);
    var s := Strobes(pm, hi + lo, l);
    assert s == [Strobes(pm, hi, l)[0], Strobes(pm, lo, l2)[0]];
    NibbleOfBits(s[0], v >> 4);
    NibbleOfBits(s[1], v);
    assert (v >> 4) & 0x0F == v >> 4;
    assert ((v >> 4) << 4) | (v & 0x0F) == v;
    assert s[2..] == [];
  }

  /** One 8-bit bus write gives one sample, which decodes to v. */
  lemma {:induction false} OctetDelivers(pm: PinMap, v: bv8, l: Lines)
    requires |l.data| == 8 && Separated(pm, 8)
    ensures var s := Strobes(pm, Write8Events(pm, v), l);
      |s| == 1 && s[0].rs == l.rs
      && Decode(s, true) == [Transfer(l.rs, v)]
      && Settle(pm, Write8Events(pm, v), l).rs == l.rs
  {
    Write8Shape(pm, v);
    BusWriteDelivers(pm, v, l);
    var s := Strobes(pm, Write8Events(pm, v), l);
    OctetOfBits(s[0], v);
    assert s[1..] == [];
  }

  // ---------------------------------------------------------------------------
  // Transmissions

  /** One transmission is received as exactly the byte sent, under the RS level it
      was sent with: one sample in 8-bit mode, two in 4-bit mode (the high nibble
      v >> 4 first, then the low nibble). RS is left at mode. */
  lemma {:induction false} SendDelivers(pm: PinMap, eightBit: bool, v: bv8, mode: Level, l: Lines)
    requires |l.data| == Width(eightBit) && Separated(pm, Width(eightBit))
    ensures var s := Strobes(pm, SendEvents(pm, eightBit, v, mode), l);
      |s| == (if eightBit then 1 else 2)
      && (forall i :: 0 <= i < |s| ==> s[i].rs == mode)
      && (!eightBit ==> Nibble(s[0]) == v >> 4 && Nibble(s[1]) == v & 0x0F)
      && Decode(s, eightBit) == [Transfer(mode, v)]
    ensures Settle(pm, SendEvents(pm, eightBit, v, mode), l).rs == mode
  {
    var sel := SelectEvents(pm, mode);
    var w := if eightBit then Write8Events(pm, v) else Write4Events(pm, v >> 4) + Write4Events(pm, v);
    SendShape(pm, eightBit, v, mode);
    SelectRegister(pm, mode, l);
    StrobesAppend(pm, sel, w, l);
    SettleAppend(pm, sel, w, l);
    var l1 := Settle(pm, sel, l);
    assert Strobes(pm, sel + w, l) == Strobes(pm, w, l1);
    if eightBit {
      OctetDelivers(pm, v, l1);
    } else {
      NibblePairDelivers(pm, v, l1);
    }
  }

  /** A sequence of transmissions of one mode as the controller receives them. */
  lemma {:induction false} SendAllDelivers(pm: PinMap, eightBit: bool, msg: seq<bv8>, mode: Level, l: Lines)
    requires |l.data| == Width(eightBit) && Separated(pm, Width(eightBit))
    ensures var s := Strobes(pm, SendAllEvents(pm, eightBit, msg, mode), l);
      |s| == (if eightBit then |msg| else 2 * |msg|)
      && Decode(s, eightBit) == Transfers(msg, mode)
    ensures msg != [] ==> Settle(pm, SendAllEvents(pm, eightBit, msg, mode), l).rs == mode
    decreases |msg|
  {
    if msg != [] {
      var init, last := msg[..|msg| - 1], msg[|msg| - 1];
      assert init + [last] == msg;
      var a, b := SendAllEvents(pm, eightBit, init, mode), SendEvents(pm, eightBit, last, mode);
      assert SendAllEvents(pm, eightBit, msg, mode) == a + b;
      SendAllDelivers(pm, eightBit, init, mode, l);
      StrobesAppend(pm, a, b, l);
      SettleAppend(pm, a, b, l);
      SendDelivers(pm, eightBit, last, mode, Settle(pm, a, l));
      DecodeSnoc(Strobes(pm, a, l), Strobes(pm, b, Settle(pm, a, l)), eightBit, init, last, mode);
    }
  }

  lemma {:induction false} DecodeSnoc(sa: seq<Lines>, sb: seq<Lines>, eightBit: bool,
                                      init: seq<bv8>, last: bv8, mode: Level)
    requires |sa| == (if eightBit then |init| else 2 * |init|)
    requires Decode(sa, eightBit) == Transfers(init, mode)
    requires Decode(sb, eightBit) == [Transfer(mode, last)]
    ensures Decode(sa + sb, eightBit) == Transfers(init + [last], mode)
  {
    DecodeAppend(sa, sb, eightBit);
    assert Transfers(init + [last], mode) == Transfers(init, mode) + [Transfer(mode, last)];
  }
}

/** The driver object: its pin assignment, its display-state bytes and its row
    offset table, with hardware effects appended to `trace`. */
module Lcd {
  import opened LcdConstants
  import opened Trace

  /** The C `int` of the driver's parameters. */
  newtype int32 = x: int | -0x8000_0000 <= x < 0x8000_0000

  /** A `uint8_t` the driver only compares and adds: the row offsets, the line count
      and the cursor position. */
  newtype uint8 = x: int | 0 <= x < 0x100

  /** Storing an integer into a `uint8_t`: the value modulo 256. */
  function ToByte(x: int): uint8 {
    (x % 256) as uint8
  }

  /** The values the driver's fields without an initializer hold before the driver
      writes them. */
  datatype Indeterminate = Indeterminate(
    displayFunction: bv8, displayControl: bv8, displayMode: bv8, numLines: uint8,
    rowOffsets: seq<uint8>, dataPins: seq<bv16>,
    d4: bv16, d5: bv16, d6: bv16, d7: bv16,
    ctrlRW: bv16, ctrlEN: bv16, ctrlRS: bv16)

  /** after differs from before at most in the bits of mask, and those bits are all
      set (on) or all clear (!on). */
  predicate BitsSetTo(before: bv8, after: bv8, mask: bv8, on: bool) {
    after & !mask == before & !mask && after & mask == (if on then mask else 0)
  }

  /** The function-set flags after Begin: 2-line when rows > 1, 5x10 dots when the font
      setting is not 5x8 and rows == 1, every other bit as before. */
  function BeginFunction(f: bv8, rows: int32, dots: bv8): (r: bv8)
    ensures r & TwoLine != 0 <==> f & TwoLine != 0 || rows > 1
    ensures r & Dots5x10 != 0 <==> f & Dots5x10 != 0 || (dots != Dots5x8 && rows == 1)
    ensures r & !(TwoLine | Dots5x10) == f & !(TwoLine | Dots5x10)
  {
    var f1 := if rows > 1 then f | TwoLine else f;
    if dots != Dots5x8 && rows == 1 then f1 | Dots5x10 else f1
  }

  /** With the default 5x8 font setting, Begin never selects the 5x10 font itself. */
  lemma DefaultFontStays(f: bv8, rows: int32)
    ensures BeginFunction(f, rows, DefaultDotSize) & Dots5x10 == f & Dots5x10
  {
  }

  /** The row setCursor uses: y, but at most 3 (the table has four rows) and at most
      numLines - 1. */
  function ClampRow(y: uint8, numLines: uint8): (r: nat)
    requires numLines >= 1
    ensures r <= y as int && r < MaxLines && r < numLines as int
    ensures r < y as int ==> r == MaxLines - 1 || r == numLines as int - 1
  {
    var y1 := if y as int >= MaxLines then MaxLines - 1 else y as int;
    if y1 >= numLines as int then numLines as int - 1 else y1
  }

  /** The set-DDRAM-address command for column x of a row starting at offset: the
      address is x + offset modulo 128 (the column is not clamped). */
  function DdramCommand(x: uint8, offset: uint8): (c: bv8)
    ensures c & SetDdramAddr != 0
    ensures c & !SetDdramAddr == (x as bv8 + offset as bv8) & 0x7F
  {
    SetDdramAddr | (x as bv8 + offset as bv8)
  }

  /** The set-CGRAM-address command for a custom character: only the low three bits
      of the location are used, placed in bits 3-5. */
  function CgramCommand(location: bv8): (c: bv8)
    ensures c & 0xC7 == SetCgramAddr
    ensures (c >> 3) & 0x07 == location & 0x07
  {
    SetCgramAddr | ((location & 0x07) << 3)
  }

  /** Locations 8 apart name the same custom character. */
  lemma CgramLocationWraps(location: bv8)
    ensures CgramCommand(location + 8) == CgramCommand(location)
  {
  }

  /** A C string read from a buffer: everything before the first NUL. */
  function CString(s: seq<bv8>): (r: seq<bv8>)
    ensures r <= s && 0 !in r
    ensures |r| < |s| ==> s[|r|] == 0
  {
    if s == [] || s[0] == 0 then [] else [s[0]] + CString(s[1..])
  }

  /** Size of printFormatted's buffer, terminating NUL included. */
  const FormatBufferSize: nat := 100

  /** The text printFormatted prints: the formatter's output cut to the buffer (one
      byte is kept for the NUL), then read as a C string. */
  function BufferText(output: seq<bv8>): (r: seq<bv8>)
    ensures |r| < FormatBufferSize && r <= output && 0 !in r
    ensures |r| < |output| && |r| < FormatBufferSize - 1 ==> output[|r|] == 0
  {
    var kept := if |output| < FormatBufferSize - 1 then output else output[..FormatBufferSize - 1];
    CString(kept)
  }

  class Lcd {
    const portData: PortId
    const portCtrlRW: PortId
    const portCtrlEN: PortId
    const portCtrlRS: PortId
    var d4: bv16
    var d5: bv16
    var d6: bv16
    var d7: bv16
    const dataPins: array<bv16>
    var ctrlRW: bv16
    var ctrlEN: bv16
    var ctrlRS: bv16
    var displayFunction: bv8
    var displayControl: bv8
    var displayMode: bv8
    var numLines: uint8
    const rowOffsets: array<uint8>
    /** Pin configuration width: nonzero means four data pins (no code changes it). */
    const fourbitMode: bv8
    /** Font setting consulted by Begin (no code changes it). */
    const dotsize: bv8
    /** The hardware effects so far. */
    var trace: seq<Event>

    predicate Valid() {
      dataPins.Length == 8 && rowOffsets.Length == MaxLines
    }

    /** The wiring as the driver currently has it. */
    function Pins(): PinMap
      requires Valid()
      reads this`ctrlRW, this`ctrlEN, this`ctrlRS, dataPins
    {
      Wiring(portData, portCtrlRW, portCtrlEN, portCtrlRS, dataPins[..], ctrlRW, ctrlEN, ctrlRS)
    }

    /** Transmission width, chosen by the 8-bit flag of the function-set byte. */
    predicate EightBitBus()
      reads this`displayFunction
    {
      EightBit(displayFunction)
    }

    /** The constructor records the four ports; every other field without an
        initializer holds whatever `init` says. */
    constructor(portdata: PortId, portctrlRW: PortId, portctrlEN: PortId, portctrlRS: PortId,
                init: Indeterminate)
      requires |init.rowOffsets| == MaxLines && |init.dataPins| == 8
      ensures Valid() && fresh(dataPins) && fresh(rowOffsets)
      ensures portData == portdata && portCtrlRW == portctrlRW
      ensures portCtrlEN == portctrlEN && portCtrlRS == portctrlRS
      ensures fourbitMode == DefaultFourBitMode && dotsize == DefaultDotSize
      ensures displayFunction == init.displayFunction && displayControl == init.displayControl
      ensures displayMode == init.displayMode && numLines == init.numLines
      ensures rowOffsets[..] == init.rowOffsets && dataPins[..] == init.dataPins
      ensures d4 == init.d4 && d5 == init.d5 && d6 == init.d6 && d7 == init.d7
      ensures ctrlRW == init.ctrlRW && ctrlEN == init.ctrlEN && ctrlRS == init.ctrlRS
      ensures trace == []
    {
      portData := portdata;
      portCtrlRW := portctrlRW;
      portCtrlEN := portctrlEN;
      portCtrlRS := portctrlRS;
      fourbitMode := DefaultFourBitMode;
      dotsize := DefaultDotSize;
      dataPins := new bv16[8](i => if 0 <= i < |init.dataPins| then init.dataPins[i] else 0);
      rowOffsets := new uint8[MaxLines](i => if 0 <= i < |init.rowOffsets| then init.rowOffsets[i] else 0);
      displayFunction := init.displayFunction;
      displayControl := init.displayControl;
      displayMode := init.displayMode;
      numLines := init.numLines;
      d4, d5, d6, d7 := init.d4, init.d5, init.d6, init.d7;
      ctrlRW, ctrlEN, ctrlRS := init.ctrlRW, init.ctrlEN, init.ctrlRS;
      trace := [];
    }

    /** Records the four data pin numbers as data pins 0-3; data pins 4-7 keep their
        values. */
    method InitDataPins(val4: bv16, val5: bv16, val6: bv16, val7: bv16)
      requires Valid()
      modifies this`d4, this`d5, this`d6, this`d7, dataPins
      ensures d4 == val4 && d5 == val5 && d6 == val6 && d7 == val7
      ensures dataPins[..] == [val4, val5, val6, val7] + old(dataPins[4..])
    {
      d4 := val4;
      d5 := val5;
      d6 := val6;
      d7 := val7;
      dataPins[0] := d4;
      dataPins[1] := d5;
      dataPins[2] := d6;
      dataPins[3] := d7;
    }

    /** Records the three control pin numbers. */
    method InitCtrlPins(rw: bv16, en: bv16, rs: bv16)
      modifies this`ctrlRW, this`ctrlEN, this`ctrlRS
      ensures ctrlRW == rw && ctrlEN == en && ctrlRS == rs
    {
      ctrlRW := rw;
      ctrlEN := en;
      ctrlRS := rs;
    }

    // -------------------------------------------------------------------------
    // Hardware access

    method DrivePin(port: PortId, pin: bv16, level: Level)
      modifies this`trace
      ensures trace == old(trace) + [PinWrite(port, pin, level)]
    {
      trace := trace + [PinWrite(port, pin, level)];
    }

    method Wait(ms: nat)
      modifies this`trace
      ensures trace == old(trace) + [Delay(ms)]
    {
      trace := trace + [Delay(ms)];
    }

    method ConfigureOutputs(port: PortId, pins: bv16)
      modifies this`trace
      ensures trace == old(trace) + [PinInit(port, pins)]
    {
      trace := trace + [PinInit(port, pins)];
    }

    /** Enables the clock of one port. */
    method EnablePortClock(port: PortId)
      modifies this`trace
      ensures trace == old(trace) + [ClockEnable(port)]
    {
      trace := trace + [ClockEnable(port)];
    }

    /** Enables the clocks of the driver's ports, comparing each port with one other
        port only. */
    method EnableClock()
      requires Valid()
      modifies this`trace
      ensures trace == old(trace) + ClockEvents(Pins())
    {
      EnablePortClock(portData);
      if portCtrlRW != portData {
        EnablePortClock(portCtrlRW);
      }
      if portCtrlRS != portCtrlRW {
        EnablePortClock(portCtrlRS);
      }
      if portCtrlEN != portCtrlRS {
        EnablePortClock(portCtrlEN);
      }
    }

    // -------------------------------------------------------------------------
    // Protocol engine

    /** EN low, high, low, with 1 ms after each edge. */
    method PulseEnable()
      requires Valid()
      modifies this`trace
      ensures trace == old(trace) + PulseEvents(Pins())
    {
      PulseShape(Pins());
      DrivePin(portCtrlEN, ctrlEN, Reset);
      Wait(1);
      DrivePin(portCtrlEN, ctrlEN, Set);
      Wait(1);
      DrivePin(portCtrlEN, ctrlEN, Reset);
      Wait(1);
    }

    /** Data pin i driven from bit i of value, for i < 4, then one enable pulse. */
    method Write4bits(value: bv8)
      requires Valid()
      modifies this`trace
      ensures trace == old(trace) + Write4Events(old(Pins()), value)
    {
      ghost var pm := Pins();
      Write4Shape(pm, value);
      for i := 0 to 4
        invariant trace == old(trace) + DataEvents(pm, value, i)
      {
        DrivePin(portData, dataPins[i], BitLevel(value, i));
      }
      PulseEnable();
    }

    /** Data pin i driven from bit i of value, for i < 8, then one enable pulse. */
    method Write8bits(value: bv8)
      requires Valid()
      modifies this`trace
      ensures trace == old(trace) + Write8Events(old(Pins()), value)
    {
      ghost var pm := Pins();
      Write8Shape(pm, value);
      for i := 0 to 8
        invariant trace == old(trace) + DataEvents(pm, value, i)
      {
        DrivePin(portData, dataPins[i], BitLevel(value, i));
      }
      PulseEnable();
    }

    /** RS to mode, RW low when it is wired, then the byte in one 8-bit write or in two
        4-bit writes, high nibble first. */
    method Send(value: bv8, mode: Level)
      requires Valid()
      modifies this`trace
      ensures trace == old(trace) + SendEvents(Pins(), EightBitBus(), value, mode)
    {
      ghost var pm := Pins();
      SendShape(pm, EightBitBus(), value, mode);
      DrivePin(portCtrlRS, ctrlRS, mode);
      if ctrlRW != RwUnused {
        DrivePin(portCtrlRW, ctrlRW, Reset);
      }
      ghost var sel := SelectEvents(pm, mode);
      assert trace == old(trace) + sel;
      if displayFunction & EightBitMode != 0 {
        Write8bits(value);
        AppendAssoc(old(trace), sel, Write8Events(pm, value));
      } else {
        Write4bits(value >> 4);
        Write4bits(value);
        AppendAssoc(old(trace) + sel, Write4Events(pm, value >> 4), Write4Events(pm, value));
        AppendAssoc(old(trace), sel, Write4Events(pm, value >> 4) + Write4Events(pm, value));
      }
    }

    /** A byte sent as a command (RS low). */
    method Command(value: bv8)
      requires Valid()
      modifies this`trace
      ensures trace == old(trace) + CommandEvents(Pins(), EightBitBus(), value)
    {
      Send(value, Reset);
    }

    /** A byte sent as data (RS high); always reports one byte written. */
    method Write(value: bv8) returns (n: nat)
      requires Valid()
      modifies this`trace
      ensures n == 1
      ensures trace == old(trace) + WriteEvents(Pins(), EightBitBus(), value)
    {
      Send(value, Set);
      n := 1;
    }

    // -------------------------------------------------------------------------
    // Text output

    /** Writes the message (empty by default) byte by byte as data and counts the
        bytes written: all of them, since every write reports success. */
    method PrintLCD(message: seq<bv8> := []) returns (n: nat)
      requires Valid()
      modifies this`trace
      ensures n == |message|
      ensures trace == old(trace) + SendAllEvents(Pins(), EightBitBus(), message, Set)
    {
      if |message| == 0 {
        return 0;
      }
      ghost var pm, eb := Pins(), EightBitBus();
      n := 0;
      var i := 0;
      while i < |message|
        invariant 0 <= i <= |message| && n == i
        invariant trace == old(trace) + SendAllEvents(pm, eb, message[..i], Set)
      {
        var written := Write(message[i]);
        SendAllSnoc(pm, eb, message, i, Set);
        AppendAssoc(old(trace), SendAllEvents(pm, eb, message[..i], Set), WriteEvents(pm, eb, message[i]));
        if written != 0 {
          n := n + 1;
        } else {
          break;
        }
        i := i + 1;
      }
      assert message[..i] == message;
    }

    /** Prints the formatter's result through the 100-byte buffer. `output` is the
        complete formatted text and `status` the formatter's return value: its length,
        or a negative value on failure. Nothing is printed unless status > 0; the
        status is returned. */
    method PrintFormatted(output: seq<bv8>, status: int32) returns (r: int32)
      requires Valid()
      requires status >= 0 ==> status as int == |output|
      modifies this`trace
      ensures r == status
      ensures trace == old(trace)
        + (if status > 0 then SendAllEvents(Pins(), EightBitBus(), BufferText(output), Set) else [])
    {
      if status > 0 {
        var _ := PrintLCD(BufferText(output));
      }
      r := status;
    }

    // -------------------------------------------------------------------------
    // Cursor and custom characters

    /** Moves the cursor (to the origin by default) to column x of row y; the row is clamped to the table and to
        the number of lines, the column is not. */
    method SetCursor(x: uint8 := 0, y: uint8 := 0)
      requires Valid() && numLines >= 1
      modifies this`trace
      ensures trace == old(trace)
        + CommandEvents(Pins(), EightBitBus(), DdramCommand(x, rowOffsets[ClampRow(y, numLines)]))
    {
      var maxLines: uint8 := rowOffsets.Length as uint8;
      var row := y;
      if row >= maxLines {
        row := maxLines - 1;
      }
      if row >= numLines {
        row := numLines - 1;
      }
      assert row as int == ClampRow(y, numLines);
      Command(DdramCommand(x, rowOffsets[row]));
    }

    /** Defines custom character `location & 7`: the CGRAM address command, then the
        eight pattern rows as data, in order. */
    method CreateChar(location: bv8, charmap: seq<bv8>)
      requires Valid() && |charmap| >= 8
      modifies this`trace
      ensures trace == old(trace) + CommandEvents(Pins(), EightBitBus(), CgramCommand(location))
        + SendAllEvents(Pins(), EightBitBus(), charmap[..8], Set)
    {
      Command(CgramCommand(location));
      ghost var pm, eb := Pins(), EightBitBus();
      ghost var t0 := trace;
      for i := 0 to 8
        invariant trace == t0 + SendAllEvents(pm, eb, charmap[..i], Set)
      {
        var _ := Write(charmap[i]);
        SendAllSnoc(pm, eb, charmap, i, Set);
        AppendAssoc(t0, SendAllEvents(pm, eb, charmap[..i], Set), WriteEvents(pm, eb, charmap[i]));
      }
    }

    // -------------------------------------------------------------------------
    // Display state toggles

    method NoAutoscroll()
      requires Valid()
      modifies this`displayMode, this`trace
      ensures BitsSetTo(old(displayMode), displayMode, EntryShiftIncrement, false)
      ensures trace == old(trace) + CommandEvents(Pins(), EightBitBus(), EntryModeSet | displayMode)
    {
      displayMode := displayMode & !EntryShiftIncrement;
      Command(EntryModeSet | displayMode);
    }

    method Autoscroll()
      requires Valid()
      modifies this`displayMode, this`trace
      ensures BitsSetTo(old(displayMode), displayMode, EntryShiftIncrement, true)
      ensures trace == old(trace) + CommandEvents(Pins(), EightBitBus(), EntryModeSet | displayMode)
    {
      displayMode := displayMode | EntryShiftIncrement;
      Command(EntryModeSet | displayMode);
    }

    method RightToLeft()
      requires Valid()
      modifies this`displayMode, this`trace
      ensures BitsSetTo(old(displayMode), displayMode, EntryLeft, false)
      ensures trace == old(trace) + CommandEvents(Pins(), EightBitBus(), EntryModeSet | displayMode)
    {
      displayMode := displayMode & !EntryLeft;
      Command(EntryModeSet | displayMode);
    }

    method LeftToRight()
      requires Valid()
      modifies this`displayMode, this`trace
      ensures BitsSetTo(old(displayMode), displayMode, EntryLeft, true)
      ensures trace == old(trace) + CommandEvents(Pins(), EightBitBus(), EntryModeSet | displayMode)
    {
      displayMode := displayMode | EntryLeft;
      Command(EntryModeSet | displayMode);
    }

    method NoDisplay()
      requires Valid()
      modifies this`displayControl, this`trace
      ensures BitsSetTo(old(displayControl), displayControl, DisplayOn, false)
      ensures trace == old(trace) + CommandEvents(Pins(), EightBitBus(), DisplayControl | displayControl)
    {
      displayControl := displayControl & !DisplayOn;
      Command(DisplayControl | displayControl);
    }

    method Display()
      requires Valid()
      modifies this`displayControl, this`trace
      ensures BitsSetTo(old(displayControl), displayControl, DisplayOn, true)
      ensures trace == old(trace) + CommandEvents(Pins(), EightBitBus(), DisplayControl | displayControl)
    {
      displayControl := displayControl | DisplayOn;
      Command(DisplayControl | displayControl);
    }

    method NoCursor()
      requires Valid()
      modifies this`displayControl, this`trace
      ensures BitsSetTo(old(displayControl), displayControl, CursorOn, false)
      ensures trace == old(trace) + CommandEvents(Pins(), EightBitBus(), DisplayControl | displayControl)
    {
      displayControl := displayControl & !CursorOn;
      Command(DisplayControl | displayControl);
    }

    method Cursor()
      requires Valid()
      modifies this`displayControl, this`trace
      ensures BitsSetTo(old(displayControl), displayControl, CursorOn, true)
      ensures trace == old(trace) + CommandEvents(Pins(), EightBitBus(), DisplayControl | displayControl)
    {
      displayControl := displayControl | CursorOn;
      Command(DisplayControl | displayControl);
    }

    // -------------------------------------------------------------------------
    // Stateless commands

    method ScrollDisplayLeft()
      requires Valid()
      modifies this`trace
      ensures trace == old(trace) + CommandEvents(Pins(), EightBitBus(), 0x18)
    {
      Command(CursorShift | DisplayMove | MoveLeft);
    }

    method ScrollDisplayRight()
      requires Valid()
      modifies this`trace
      ensures trace == old(trace) + CommandEvents(Pins(), EightBitBus(), 0x1C)
    {
      Command(CursorShift | DisplayMove | MoveRight);
    }

    method Clear()
      requires Valid()
      modifies this`trace
      ensures trace == old(trace) + CommandEvents(Pins(), EightBitBus(), 0x01) + [Delay(2)]
    {
      Command(ClearDisplay);
      Wait(2);
    }

    method Home()
      requires Valid()
      modifies this`trace
      ensures trace == old(trace) + CommandEvents(Pins(), EightBitBus(), 0x02) + [Delay(2)]
    {
      Command(ReturnHome);
      Wait(2);
    }

    // -------------------------------------------------------------------------
    // Initialization

    /** Stores four row start addresses, each truncated to a byte. */
    method SetRowOffsets(row0: int32, row1: int32, row2: int32, row3: int32)
      requires Valid()
      modifies rowOffsets
      ensures rowOffsets[..] == [ToByte(row0 as int), ToByte(row1 as int), ToByte(row2 as int), ToByte(row3 as int)]
    {
      rowOffsets[0] := ToByte(row0 as int);
      rowOffsets[1] := ToByte(row1 as int);
      rowOffsets[2] := ToByte(row2 as int);
      rowOffsets[3] := ToByte(row3 as int);
    }

    /** The power-on sequence for a display of `cols` columns and `rows` rows. */
    method Begin(cols: int32, rows: int32)
      requires Valid()
      requires cols as int + 0x40 < 0x8000_0000
      modifies this`displayFunction, this`numLines, this`displayControl, this`displayMode, this`trace
      modifies rowOffsets
      ensures displayFunction == BeginFunction(old(displayFunction), rows, dotsize)
      ensures numLines == ToByte(rows as int)
      ensures rowOffsets[..] == [0x00, 0x40, ToByte(cols as int), ToByte(cols as int + 0x40)]
      ensures displayControl == DisplayOn && displayMode == EntryLeft
      ensures trace == old(trace) + BeginEvents(Pins(), fourbitMode != 0, displayFunction)
    {
      SetGeometry(cols, rows);
      PowerUp();
    }

    // Begin's phases, in the order Begin runs them.

    /** The line-count and font flags, the line count and the row offsets. */
    method SetGeometry(cols: int32, rows: int32)
      requires Valid()
      requires cols as int + 0x40 < 0x8000_0000
      modifies this`displayFunction, this`numLines, rowOffsets
      ensures displayFunction == BeginFunction(old(displayFunction), rows, dotsize)
      ensures numLines == ToByte(rows as int)
      ensures rowOffsets[..] == [0x00, 0x40, ToByte(cols as int), ToByte(cols as int + 0x40)]
    {
      if rows > 1 {
        displayFunction := displayFunction | TwoLine;
      }
      numLines := ToByte(rows as int);
      SetRowOffsets(0x00, 0x40, 0x00 + cols, 0x40 + cols);
      if dotsize != Dots5x8 && rows == 1 {
        displayFunction := displayFunction | Dots5x10;
      }
    }

    /** Pin setup, lines low, handshake and configuration, in that order. */
    method PowerUp()
      requires Valid()
      modifies this`displayControl, this`displayMode, this`trace
      ensures displayControl == DisplayOn && displayMode == EntryLeft
      ensures trace == old(trace) + BeginEvents(Pins(), fourbitMode != 0, displayFunction)
    {
      ghost var t0 := trace;
      SetUpPins();
      PullLinesLow();
      Handshake();
      Configure();
      BeginSteps(t0, Pins(), fourbitMode != 0, displayFunction);
    }

    /** Clock enables, output configuration of RS, RW, EN and the data pins (four or
        eight by `fourbitMode`), then the 50 ms power-up wait. */
    method SetUpPins()
      requires Valid()
      modifies this`trace
      ensures trace == old(trace) + ClockEvents(old(Pins())) + InitEvents(old(Pins()), fourbitMode != 0) + [Delay(50)]
    {
      EnableClock();
      InitPins();
      Wait(50);
    }

    /** Output configuration of RS, RW and EN, then of the four or eight data pins. */
    method InitPins()
      requires Valid()
      modifies this`trace
      ensures trace == old(trace) + InitEvents(old(Pins()), fourbitMode != 0)
    {
      ghost var pm, t0 := Pins(), trace;
      ConfigureOutputs(portCtrlRS, ctrlRS);
      ConfigureOutputs(portCtrlRW, ctrlRW);
      ConfigureOutputs(portCtrlEN, ctrlEN);
      if fourbitMode != 0 {
        ConfigureOutputs(portData, dataPins[0] | dataPins[1] | dataPins[2] | dataPins[3]);
      } else {
        ConfigureOutputs(portData, dataPins[0] | dataPins[1] | dataPins[2] | dataPins[3]
                                   | dataPins[4] | dataPins[5] | dataPins[6] | dataPins[7]);
      }
      InitSteps(t0, pm, fourbitMode != 0);
    }

    /** RS and EN low, and RW low when it is wired. */
    method PullLinesLow()
      requires Valid()
      modifies this`trace
      ensures trace == old(trace) + ResetLinesEvents(Pins())
    {
      DrivePin(portCtrlRS, ctrlRS, Reset);
      DrivePin(portCtrlEN, ctrlEN, Reset);
      if ctrlRW != RwUnused {
        DrivePin(portCtrlRW, ctrlRW, Reset);
      }
    }

    /** The interface handshake for the bus width the function-set byte selects. */
    method Handshake()
      requires Valid()
      modifies this`trace
      ensures trace == old(trace) + HandshakeEvents(Pins(), displayFunction)
    {
      if displayFunction & EightBitMode == 0 {
        Handshake4();
      } else {
        Handshake8();
      }
    }

    /** Nibbles 3, 3, 3 and 2, with 5, 5 and 1 ms waits in between. */
    method Handshake4()
      requires Valid() && !EightBitBus()
      modifies this`trace
      ensures trace == old(trace) + HandshakeEvents(Pins(), displayFunction)
    {
      ghost var pm, f, t0 := Pins(), displayFunction, trace;
      Write4bits(0x03);
      Wait(5);
      Write4bits(0x03);
      Wait(5);
      Write4bits(0x03);
      Wait(1);
      Write4bits(0x02);
      HandshakeSteps4(t0, pm, f);
    }

    /** The function-set command three times, with 5 and 1 ms waits in between. */
    method Handshake8()
      requires Valid() && EightBitBus()
      modifies this`trace
      ensures trace == old(trace) + HandshakeEvents(Pins(), displayFunction)
    {
      ghost var pm, f, t0 := Pins(), displayFunction, trace;
      Command(FunctionSet | displayFunction);
      Wait(5);
      Command(FunctionSet | displayFunction);
      Wait(1);
      Command(FunctionSet | displayFunction);
      HandshakeSteps8(t0, pm, f);
    }

    /** Function set, display on without cursor or blink, clear, left-to-right entry. */
    method Configure()
      requires Valid()
      modifies this`displayControl, this`displayMode, this`trace
      ensures displayControl == DisplayOn && displayMode == EntryLeft
      ensures trace == old(trace) + ConfigureEvents(Pins(), displayFunction)
    {
      ghost var pm, f, t0 := Pins(), displayFunction, trace;
      Command(FunctionSet | displayFunction);
      displayControl := DisplayOn | CursorOff | BlinkOff;
      Display();
      assert DisplayControl | displayControl == DisplayControl | DisplayOn;
      Clear();
      displayMode := EntryLeft | EntryShiftDecrement;
      Command(EntryModeSet | displayMode);
      ConfigureSteps(t0, pm, f);
    }
  }

  /** Cursor on then cursor off leaves the control byte as it was, with the cursor
      bit clear, and sends the two control commands. */
  method CursorOnOff(lcd: Lcd)
    requires lcd.Valid()
    modifies lcd`displayControl, lcd`trace
    ensures lcd.displayControl == old(lcd.displayControl) & !CursorOn
    ensures lcd.trace == old(lcd.trace)
      + CommandEvents(lcd.Pins(), lcd.EightBitBus(), DisplayControl | old(lcd.displayControl) | CursorOn)
      + CommandEvents(lcd.Pins(), lcd.EightBitBus(), DisplayControl | (old(lcd.displayControl) & !CursorOn))
  {
    lcd.Cursor();
    lcd.NoCursor();
  }
}

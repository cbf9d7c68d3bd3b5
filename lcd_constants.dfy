/** Command opcodes and flag bits of the HD44780 instruction set, as the driver's
    header defines them, with the facts about their bit layout that the driver
    relies on when it ORs a flag byte into an opcode. */
module LcdConstants {

  // Command opcodes: each one is a single bit; the highest set bit of a command
  // byte selects the instruction.
  const ClearDisplay: bv8 := 0x01
  const ReturnHome: bv8 := 0x02
  const EntryModeSet: bv8 := 0x04
  const DisplayControl: bv8 := 0x08
  const CursorShift: bv8 := 0x10
  const FunctionSet: bv8 := 0x20
  const SetCgramAddr: bv8 := 0x40
  const SetDdramAddr: bv8 := 0x80

  // Flags for the entry-mode command.
  const EntryRight: bv8 := 0x00
  const EntryLeft: bv8 := 0x02
  const EntryShiftIncrement: bv8 := 0x01
  const EntryShiftDecrement: bv8 := 0x00

  // Flags for the display on/off control command.
  const DisplayOn: bv8 := 0x04
  const DisplayOff: bv8 := 0x00
  const CursorOn: bv8 := 0x02
  const CursorOff: bv8 := 0x00
  const BlinkOn: bv8 := 0x01
  const BlinkOff: bv8 := 0x00

  // Flags for the display/cursor shift command.
  const DisplayMove: bv8 := 0x08
  const CursorMove: bv8 := 0x00
  const MoveRight: bv8 := 0x04
  const MoveLeft: bv8 := 0x00

  // Flags for the function-set command.
  const EightBitMode: bv8 := 0x10
  const FourBitMode: bv8 := 0x00
  const TwoLine: bv8 := 0x08
  const OneLine: bv8 := 0x00
  const Dots5x10: bv8 := 0x04
  const Dots5x8: bv8 := 0x00

  /** The opcodes in increasing order. */
  const Opcodes: seq<bv8> :=
    [ClearDisplay, ReturnHome, EntryModeSet, DisplayControl,
     CursorShift, FunctionSet, SetCgramAddr, SetDdramAddr]

  /** The bits each command's parameter flags may occupy. */
  const EntryFlags: bv8 := EntryLeft | EntryShiftIncrement
  const ControlFlags: bv8 := DisplayOn | CursorOn | BlinkOn
  const ShiftFlags: bv8 := DisplayMove | MoveRight
  const FunctionFlags: bv8 := EightBitMode | TwoLine | Dots5x10

  /** Number of entries of the driver's row-offset table. */
  const MaxLines: nat := 4

  /** Value of the RW pin number that means "RW is not wired". */
  const RwUnused: bv16 := 255

  /** The value a flag byte of the driver starts from: its defaults for font and bus width. */
  const DefaultFourBitMode: bv8 := 1
  const DefaultDotSize: bv8 := Dots5x8

  /** Opcode i is bit i, so the eight opcodes are distinct single bits. */
  lemma OpcodesAreDistinctBits()
    ensures |Opcodes| == 8
    ensures forall i :: 0 <= i < 8 ==> Opcodes[i] == (1 as bv8) << i
    ensures forall i, j :: 0 <= i < j < 8 ==> Opcodes[i] != Opcodes[j]
  {
  }

  /** Each flag group lies strictly below its own opcode bit. */
  lemma FlagsBelowOpcodes()
    ensures EntryFlags == 0x03 && EntryFlags < EntryModeSet
    ensures ControlFlags == 0x07 && ControlFlags < DisplayControl
    ensures ShiftFlags == 0x0C && ShiftFlags < CursorShift && ShiftFlags & 0x03 == 0
    ensures FunctionFlags == 0x1C && FunctionFlags < FunctionSet && FunctionFlags & 0x03 == 0
  {
  }

  /** A display-control byte built from flags keeps the opcode and gives the flags back. */
  lemma ControlCommandDecodes(c: bv8)
    requires c & !ControlFlags == 0
    ensures (DisplayControl | c) & !ControlFlags == DisplayControl
    ensures (DisplayControl | c) & ControlFlags == c
  {
  }

  /** An entry-mode byte built from flags keeps the opcode and gives the flags back. */
  lemma EntryCommandDecodes(m: bv8)
    requires m & !EntryFlags == 0
    ensures (EntryModeSet | m) & !EntryFlags == EntryModeSet
    ensures (EntryModeSet | m) & EntryFlags == m
  {
  }

  /** A function-set byte built from flags keeps the opcode and gives the flags back. */
  lemma FunctionCommandDecodes(f: bv8)
    requires f & !FunctionFlags == 0
    ensures (FunctionSet | f) & !FunctionFlags == FunctionSet
    ensures (FunctionSet | f) & FunctionFlags == f
  {
  }

  /** A cursor-shift byte built from flags keeps the opcode and gives the flags back. */
  lemma ShiftCommandDecodes(s: bv8)
    requires s & !ShiftFlags == 0
    ensures (CursorShift | s) & !ShiftFlags == CursorShift
    ensures (CursorShift | s) & ShiftFlags == s
  {
  }
}

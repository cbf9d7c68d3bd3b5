# HD44780 character-LCD driver, modelled in Dafny

This project models the `LCD` driver class of an STM32 firmware library for
HD44780-compatible character displays. The class holds:

- the pin assignment (four GPIO ports, four or eight data pins, RS/RW/EN);
- three display-state bytes (function set, display control, entry mode);
- a four-entry row-offset table and the line count.

It talks to the controller by driving pins and pulsing EN. Every hardware effect becomes an event
appended to the `trace` field of the Dafny class `Lcd.Lcd`. There are four kinds of event:

- a pin write (port, pin, level);
- a delay in milliseconds;
- a port clock enable;
- a pin configuration as outputs.

Modules:

- `LcdConstants` (`lcd_constants.dfy`) holds the command opcodes and flag bits of the header. It
  proves the bit-layout facts the driver relies on when it ORs flags into an opcode.
- `Trace` (`trace.dfy`) holds the events and, for each driver operation, a function giving exactly
  the events it emits.
  - The private call structure (`send` → `write4bits`/`write8bits` → `pulseEnable`) is written
    once, as a small interpreter `Run` over operation lists.
  - The shape lemmas unfold `Run` into plain event sequences.
- `Controller` (`controller.dfy`) is an independent model of the receiving controller.
  - It wires the controller's RS and data lines to the MCU pins of a pin map.
  - It samples those lines whenever EN is driven high.
  - It assembles bytes: one sample per byte in 8-bit mode, two samples (high nibble first) in 4-bit
    mode.
  - Lemmas prove that every transmission the driver makes is received as exactly the byte sent,
    under the intended RS level.
  - This holds provided the wiring is separated (`Controller.Separated`). Each control pin and each
    data pin in use is a single-bit GPIO mask. EN, RS and the data pins in use are pairwise
    different pins. A wired RW pin only has to differ from RS: it may share a pin with EN or with a
    data pin, since the controller does not sample RW. `HAL_GPIO_WritePin` drives every pin of its mask, so under this condition a write reaches
    exactly the one line whose pin it names (`Controller.SeparatedMasksDisjoint`).
- `PowerOn` (`power_on.dfy`) proves what the controller receives during `Begin`:
  - nothing during pin setup;
  - then the nibbles 3, 3, 3, 2 (4-bit) or three function-set commands (8-bit);
  - the 8-bit results assume all eight data pins drive the controller's lines. The receiver does not
    model output configuration, and the driver configures only data pins 0-3
    (`PowerOn.FourPinSetupMissesHighPins`);
  - then function set, 0x0C, 0x01 and 0x06, all with RS low.
- `Lcd` (`lcd.dfy`) is the class itself. It has the source's fields, arrays for the data-pin and
  row-offset tables, and one method per member function. Each method's postcondition gives the new
  trace as a `Trace` function of the old state, and the new state bytes exactly.

Behaviour of the code that the model keeps as written:

- **Clock enables are not deduplicated.** `enableClock` compares the RW port with the data port,
  RS with RW, and EN with RS, and nothing else. Its doc comment (`Src/lcd.cpp:259-263`) promises
  only that each port's clock gets enabled, which holds (`Trace.ClockEventsCover`). Ports shared
  crosswise are enabled more than once (`Trace.ClockEventsRepeat`).
- **Pin setup and transmission can disagree on the bus width.** Pins are configured for four or
  eight data lines according to `_fourbit_mode`, while transmission uses the 8-bit flag of the
  function-set byte. `_fourbit_mode` is always 1, so an 8-bit function set writes data pins 4-7,
  which were never configured (`PowerOn.FourPinSetupMissesHighPins`).
- **`printFormatted` returns the formatter's status.** Its comment (`Src/lcd.cpp:88`) speaks of
  the number of characters printed. The code returns `vsnprintf`'s result, which counts the whole
  formatted text. That is larger than what is printed when the text is longer than 99 bytes or
  contains a NUL. `Lcd.Lcd.PrintFormatted` follows the code (`r == status`).
- **The RW pin is always configured**, but it is only written when its number is not 255.
- **`setCursor` does not clamp the column**, and the DDRAM address is truncated to 8 bits.
- **Fields without an initializer start with a parameter's values.** `_displayfunction` and its
  siblings take their initial values from the constructor parameter `init`, of type
  `Lcd.Indeterminate`.
- **C integer conversions are explicit.**
  - `newtype int32` models C `int`.
  - `Lcd.uint8` models `uint8_t` values the code only adds and compares.
  - `bv8` and `bv16` model the flag bytes and pin masks.
  - `ToByte` models storing an `int` into a `uint8_t`.

## Model

| member | source | states |
|---|---|---|
| LcdConstants.OpcodesAreDistinctBits | Inc/lcd.hpp:53-60 | the eight opcodes are the distinct single bits 1 << 0 … 1 << 7 |
| LcdConstants.FlagsBelowOpcodes | Inc/lcd.hpp:63-88 | each command's flag bits (entry 0x03, control 0x07, shift 0x0C, function 0x1C) lie below its opcode bit |
| LcdConstants.ControlCommandDecodes | Inc/lcd.hpp:69-74 | 0x08 OR'd with control flags keeps the opcode and gives the flags back |
| LcdConstants.EntryCommandDecodes | Inc/lcd.hpp:63-66 | 0x04 OR'd with entry flags keeps the opcode and gives the flags back |
| LcdConstants.FunctionCommandDecodes | Inc/lcd.hpp:83-88 | 0x20 OR'd with function flags keeps the opcode and gives the flags back |
| LcdConstants.ShiftCommandDecodes | Inc/lcd.hpp:77-80 | 0x10 OR'd with shift flags keeps the opcode and gives the flags back |
| Trace.BitLevel | Src/lcd.cpp:507 | a data pin is driven high exactly when bit i of the value is set |
| Trace.DataEvents | Src/lcd.cpp:506-508 | the loop drives data pin i of the data port from bit i, for each i < n, in index order |
| Trace.PulseShape | Src/lcd.cpp:489-496 | an enable pulse is EN low, 1 ms, EN high, 1 ms, EN low, 1 ms |
| Trace.Write4Shape | Src/lcd.cpp:505-511 | write4bits drives data pins 0-3 and then pulses once |
| Trace.Write8Shape | Src/lcd.cpp:520-526 | write8bits drives data pins 0-7 and then pulses once |
| Trace.Write4LowNibbleOnly | Src/lcd.cpp:505-511 | write4bits of v emits the same events as write4bits of v & 0x0F |
| Trace.SendShape | Src/lcd.cpp:467-481 | send drives RS to the mode, then RW low only when it is wired, then makes one 8-bit write or two 4-bit writes, v >> 4 first |
| Trace.ClockEventsCover | Src/lcd.cpp:265-270 | every port gets at least one enable, the data port first; at most four enables, no two equal enables back to back, none for any other port |
| Trace.ClockEventsRepeat | Src/lcd.cpp:265-270 | with RS on the data port and EN on the RW port, each of the two ports is enabled twice |
| Trace.HandshakeShape4 | Src/lcd.cpp:365-382 | the 4-bit handshake is write4bits 3, 5 ms, 3, 5 ms, 3, 1 ms, 2 |
| Trace.HandshakeShape8 | Src/lcd.cpp:383-397 | the 8-bit handshake is the function-set command, 5 ms, again, 1 ms, again |
| Trace.ConfigureShape | Src/lcd.cpp:399-412 | the configuration is function set, display on, clear with its 2 ms wait, entry mode |
| Controller.DataEventsDrive | Src/lcd.cpp:506-508 | driving the data pins puts bit i on data line i, leaves RS alone and takes no sample |
| Controller.PulseSamples | Src/lcd.cpp:489-496 | an enable pulse makes the controller sample the lines exactly once and changes no line |
| Controller.BusWriteDelivers | Src/lcd.cpp:505-526 | a bus write of all the controller's data lines is sampled once, carrying bit i on line i and RS unchanged |
| Controller.SelectRegister | Src/lcd.cpp:468-473 | selecting the register leaves RS at the mode, whether or not RW is wired, and takes no sample |
| Controller.NibblePairDelivers | Src/lcd.cpp:478-479 | the two nibble writes are sampled as v >> 4, then v & 0x0F, which the controller assembles to v |
| Controller.OctetDelivers | Src/lcd.cpp:476 | the 8-bit write is sampled once and decodes to v |
| Controller.SeparatedMasksDisjoint | Src/lcd.cpp:344 | under Separated, the GPIO masks of any two controller lines on one port share no bit: RS/EN, RS/RW, data/EN, data/RS, data/data |
| Controller.SendDelivers | Src/lcd.cpp:467-481 | one send is received as exactly one byte, v, under its RS level: one sample in 8-bit mode, two in 4-bit mode (two enable pulses) |
| Controller.SendAllDelivers | Src/lcd.cpp:69-77 | a run of data writes is received as exactly the message bytes, in order, all with RS high |
| PowerOn.SetupIsQuiet | Src/lcd.cpp:323-354 | clock enables, pin configuration and the 50 ms wait change no controller line |
| PowerOn.ResetLinesReady | Src/lcd.cpp:357-362 | pulling RS, EN and a wired RW low takes no sample and leaves RS low |
| PowerOn.HandshakeNibbles | Src/lcd.cpp:370-382 | the 4-bit handshake consists of writes of the nibbles 3, 3, 3, 2 and waits only |
| PowerOn.HandshakeDelivers4 | Src/lcd.cpp:365-382 | the controller samples exactly four nibbles, 3, 3, 3, 2, during the 4-bit handshake |
| PowerOn.HandshakeDelivers8 | Src/lcd.cpp:383-397 | the controller receives 0x20 OR'd with the function byte three times as commands during the 8-bit handshake |
| PowerOn.ConfigureDelivers | Src/lcd.cpp:399-412 | the controller receives the commands 0x20 OR'd with the function byte, 0x0C, 0x01 and 0x06, in that order |
| PowerOn.BeginDelivers4 | Src/lcd.cpp:310-414 | in 4-bit mode the power-on sequence yields twelve samples: nibbles 3, 3, 3, 2 with RS low, then the four configuration commands |
| PowerOn.BeginDelivers8 | Src/lcd.cpp:310-414 | in 8-bit mode the power-on sequence yields seven commands: four function sets, then 0x0C, 0x01 and 0x06 |
| PowerOn.FourPinSetupMissesHighPins | Src/lcd.cpp:343-347 | with `_fourbit_mode` set, the configured data mask shares no bit with data pins 4-7 on a separated 8-line wiring |
| Lcd.BeginFunction | Src/lcd.cpp:311-320 | 2-line is set iff it was set or rows > 1; 5x10 is set iff it was set or (font setting is not 5x8 and rows == 1); all other bits are kept |
| Lcd.DefaultFontStays | Src/lcd.cpp:318-320 | with the default 5x8 font setting, Begin never changes the 5x10 bit |
| Lcd.ClampRow | Src/lcd.cpp:118-124 | the row used is at most y, below 4 and below the line count; it is smaller than y only when clamped to 3 or to numLines - 1 |
| Lcd.DdramCommand | Src/lcd.cpp:126 | the address command has bit 7 set, and its low seven bits are (x + offset) mod 256, cut to seven bits; the column is not clamped |
| Lcd.CgramCommand | Src/lcd.cpp:139-140 | the CGRAM command is 0x40 with location & 7 in bits 3-5 and nothing else |
| Lcd.CgramLocationWraps | Src/lcd.cpp:139-140 | locations 8 apart give the same CGRAM command |
| Lcd.CString | Src/lcd.cpp:102 | the text read from a buffer is its longest prefix without a NUL |
| Lcd.BufferText | Src/lcd.cpp:92-103 | what printFormatted prints is a NUL-free prefix of the formatter's output, shorter than the 100-byte buffer |
| Lcd.Lcd.constructor | Src/lcd.cpp:19-24 | records the four ports; the uninitialised fields hold the given values; defaults are four-bit pin setup and 5x8 font; nothing is emitted |
| Lcd.Lcd.InitDataPins | Src/lcd.cpp:36-45 | sets d4-d7 and data pins 0-3 to the four values; data pins 4-7 are unchanged |
| Lcd.Lcd.InitCtrlPins | Src/lcd.cpp:56-60 | sets the three control pin numbers |
| Lcd.Lcd.EnablePortClock | Src/lcd.cpp:284-299 | one clock-enable event for the port |
| Lcd.Lcd.EnableClock | Src/lcd.cpp:265-270 | appends exactly ClockEvents: data port, then RW, RS, EN each unless equal to the port it is compared with |
| Lcd.Lcd.PulseEnable | Src/lcd.cpp:489-496 | appends exactly one enable pulse |
| Lcd.Lcd.Write4bits | Src/lcd.cpp:505-511 | appends data pins 0-3 driven from bits 0-3, then one pulse |
| Lcd.Lcd.Write8bits | Src/lcd.cpp:520-526 | appends data pins 0-7 driven from bits 0-7, then one pulse |
| Lcd.Lcd.Send | Src/lcd.cpp:467-481 | appends one transmission of the byte, at the width the function-set byte selects |
| Lcd.Lcd.Command | Src/lcd.cpp:441-443 | appends one transmission with RS low |
| Lcd.Lcd.Write | Src/lcd.cpp:452-455 | appends one transmission with RS high and returns 1 |
| Lcd.Lcd.PrintLCD | Src/lcd.cpp:69-77 | returns the message length and appends one data transmission per byte, in order (nothing for the empty message, which is the default) |
| Lcd.Lcd.PrintFormatted | Src/lcd.cpp:90-105 | returns the formatter's status; prints the buffered text only when the status is positive |
| Lcd.Lcd.SetCursor | Src/lcd.cpp:117-127 | appends exactly one command, the DDRAM address of column x in the clamped row; x and y default to 0 |
| Lcd.Lcd.CreateChar | Src/lcd.cpp:138-144 | appends the CGRAM command, then the eight pattern bytes as data, in index order |
| Lcd.Lcd.NoAutoscroll | Src/lcd.cpp:152-155 | clears only the shift-increment bit of the entry mode, then sends the entry-mode command |
| Lcd.Lcd.Autoscroll | Src/lcd.cpp:163-166 | sets only the shift-increment bit of the entry mode, then sends the entry-mode command |
| Lcd.Lcd.RightToLeft | Src/lcd.cpp:173-176 | clears only the entry-left bit, then sends the entry-mode command |
| Lcd.Lcd.LeftToRight | Src/lcd.cpp:185-188 | sets only the entry-left bit, then sends the entry-mode command |
| Lcd.Lcd.NoDisplay | Src/lcd.cpp:211-214 | clears only the display-on bit of the control byte, then sends the control command |
| Lcd.Lcd.Display | Src/lcd.cpp:219-222 | sets only the display-on bit, then sends the control command |
| Lcd.Lcd.NoCursor | Src/lcd.cpp:227-230 | clears only the cursor-on bit, then sends the control command |
| Lcd.Lcd.Cursor | Src/lcd.cpp:235-238 | sets only the cursor-on bit, then sends the control command |
| Lcd.CursorOnOff | Src/lcd.cpp:227-238 | cursor then noCursor leaves the control byte as it was with bit 0x02 clear |
| Lcd.Lcd.ScrollDisplayLeft | Src/lcd.cpp:195-197 | sends command 0x18 and changes no state byte |
| Lcd.Lcd.ScrollDisplayRight | Src/lcd.cpp:204-206 | sends command 0x1C and changes no state byte |
| Lcd.Lcd.Clear | Src/lcd.cpp:243-247 | sends command 0x01, then waits 2 ms |
| Lcd.Lcd.Home | Src/lcd.cpp:252-256 | sends command 0x02, then waits 2 ms |
| Lcd.Lcd.SetRowOffsets | Src/lcd.cpp:427-432 | the table becomes the four offsets, each truncated to a byte |
| Lcd.Lcd.Begin | Src/lcd.cpp:310-414 | function byte per BeginFunction, line count rows mod 256, offsets {0, 0x40, cols, cols + 0x40} mod 256, control 0x04, mode 0x02, and the whole power-on trace |
| Lcd.Lcd.SetGeometry | Src/lcd.cpp:311-320 | the line-count and font flags, the line count and the row offsets as Begin sets them |
| Lcd.Lcd.PowerUp | Src/lcd.cpp:322-412 | pin setup, lines low, handshake, configuration; leaves control 0x04 and mode 0x02 |
| Lcd.Lcd.SetUpPins | Src/lcd.cpp:323-354 | clock enables, output configuration of RS, RW, EN and the data pins, then 50 ms |
| Lcd.Lcd.InitPins | Src/lcd.cpp:325-349 | RS, RW (always), EN, then four or eight data pins as `_fourbit_mode` says |
| Lcd.Lcd.PullLinesLow | Src/lcd.cpp:357-362 | RS and EN low, RW low only when wired |
| Lcd.Lcd.Handshake | Src/lcd.cpp:365-397 | the handshake for the width the function-set byte selects |
| Lcd.Lcd.Handshake4 | Src/lcd.cpp:365-382 | nibbles 3, 3, 3, 2 with 5, 5 and 1 ms waits |
| Lcd.Lcd.Handshake8 | Src/lcd.cpp:383-397 | three function-set commands with 5 and 1 ms waits |
| Lcd.Lcd.Configure | Src/lcd.cpp:399-412 | function set, display on (control 0x04), clear, entry mode (mode 0x02) |

## Left out

- `Src/LCD_wrapper.cpp` and `Inc/LCD_wrapper.h`: one-line C forwarders with no logic; they are not part of this model.
- `putch`: it is declared in the header but defined in no source file of the driver.
- `_initialized`: it is declared but never read or written.
- The HAL calls (`HAL_GPIO_Init`, `HAL_GPIO_WritePin`, `HAL_Delay`) are events in the trace. No real time passes, and the GPIO speed and mode settings of the pin configuration are not recorded.
- Lcd.Lcd.EnablePortClock: `enableClock2` maps a port to its RCC macro, and does nothing for ports other than GPIOA-F. The model emits one abstract clock-enable event for any port, so that no-op case is not modelled.
- Lcd.Lcd.PrintFormatted: `vsnprintf` is C library code. The formatter's complete output and its return value are parameters instead. When the status is non-negative it must equal the output's length, as vsnprintf's does. Only the 100-byte truncation and the NUL termination are modelled.
- Lcd.Lcd.SetCursor: requires a line count of at least 1. With 0 lines, `_numlines - 1` makes the row index 255 and reads outside `_row_offsets`, which is undefined behaviour.
- Lcd.Lcd.Begin: requires `0x40 + cols` not to overflow `int`, since signed overflow is undefined behaviour in C.
- Lcd.Lcd.Begin: its body is split into phase methods: SetGeometry, PowerUp, SetUpPins, InitPins, PullLinesLow, Handshake (Handshake4/Handshake8) and Configure. They run Begin's statements in the same order, so each proof stays small.
- PowerOn.BeginDelivers8: the receiver treats every written pin as an output, because output configuration (`PinInit`) does not change what `Controller.Step` sees. So the 8-bit delivery lemmas (`PowerOn.HandshakeDelivers8` and `PowerOn.BeginDelivers8`) do not cover the driver's own four-pin setup (`_fourbit_mode = 1`), where data pins 4-7 are never configured as outputs. There, what the controller receives on those lines is not modelled; `PowerOn.FourPinSetupMissesHighPins` states that the setup leaves them out.
- The receiver lemmas in `Controller` and `PowerOn` assume a separated wiring (`Controller.Separated`): single-bit pin masks, with EN, RS and the data pins in use on pairwise different pins and a wired RW on a pin other than RS. A pin number with several bits set drives several pins at once. The receiver model does not cover such wirings, where one write can reach several lines. The driver itself does not check the wiring, and the `Lcd` methods do not assume it.
- The controller model covers only what the driver sends (RS and data lines sampled on EN). It does not model the controller's own timing, its busy flag or reads over RW, because the driver never reads.
- `Trace.Run` expands a list of driver operations into events. Its operation weights only serve its termination proof and model nothing in the source.

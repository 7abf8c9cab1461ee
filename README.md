# HD44780 LCD drivers and a traffic-light sequencer, modelled in Dafny

The repository holds PIC18 firmware in C:

- Three copies of a character-LCD driver use a 4-bit bus: the LCD demo, the volt meter and the special-character program. Each copy keeps a few byte-sized globals and writes them to PORTB:
  - `lcdInfo`/`lcdData` is the byte to send;
  - `lcdTempInfo`/`lcdTempData` is a nibble-swapped copy of it;
  - `rsOr`/`rsLine` is the RS mask, 0x00 for instructions and 0x10 for data.
- One copy of the driver uses an 8-bit bus, with E and RS on separate pins.
- A traffic-light loop switches three lamps on PORTB.

The model keeps the firmware's imperative form.

- **Classes for the drivers.** Each driver is a class whose fields are those globals. Its methods are the subroutines, and each appends to a `trace`: the port writes, E pulses and `__delay_ms` calls, in order. The traffic light is a class holding PORTB and its own trace.
- **Byte arithmetic.** Bytes are integers in 0..255 (`Bytes.byte`). C's `|` is defined bit by bit and proved to be the bitwise OR. The nibble swap `(x << 4 | x >> 4)` is proved to be the 8-bit rotation by four, using `bv8`.
- **The controller as a partner.** The receiving side is modelled as well. `Hd44780.Decode` gives the HD44780 instruction-table meaning of a byte. `Lcd4Bit.Reassemble` is how the controller pairs nibbles in 4-bit mode. `Lcd4Bit.Read` follows the controller's interface width transfer by transfer: 8-bit or 4-bit, and in 4-bit mode whether half a pair is waiting; a function set switches it. `Lcd8Bit.Receive` is its 8-bit counterpart.

What the drivers send is then proved to be received as intended:
- the right bytes, in order;
- each byte in the right mode;
- start-up beginning with the interface-setting part of the controller's "initializing by instruction" procedure (function set with the 8-bit interface, repeated, then in 4-bit wiring function set with the 4-bit interface), followed by the program's own configuration, which is not the procedure's display-off, clear, entry-mode tail. From any state the controller may be in (8-bit, 4-bit on a pair boundary, or 4-bit with half a pair waiting), the start-up transfers leave it in 4-bit mode on a pair boundary and deliver the configuration intact.

The three 4-bit copies differ in only two constants, so they share `Lcd4Bit.Driver`:
- the delay after each transfer: 2 ms in the demo, 3 ms in the other two;
- whether `setUpTheLCD` itself waits 32 ms first. The special-character program does not; its `main` waits 33 ms instead.

Each program has its own constructor that fixes these two constants. `gohome` exists only in the volt meter and `writeToGram` only in the special-character program; both are methods of the shared class.

Three facts about the code that the model follows:
- **Mode after clearing.** Every `clearTheScreen` ends by setting the RS mask back to 0x10, data mode (LCD_Programming_main.c:157).
- **Clear-display delay.** The datasheet lists clear display as a slow instruction, but the code gives it the same per-transfer delay as every other byte (LCD_Programming_main.c:117).
- **Blink.** The 4-bit table sends `cursorNoBlink` (0x0C: display on, cursor and blink off) (LCD_Programming_main.c:101). Only the 8-bit table sends `doBlink` (LCD_Programming_8Bit_main.c:104).

## Model

| member | source | states |
|---|---|---|
| `Bytes.High` | LCD_Programming_main.c:110 | `b >> 4`: the upper nibble moved down (its meaning is proved by `Bytes.NibblesAreShifts` and `Bytes.NibbleSplit`) |
| `Bytes.Low` | LCD_Programming_main.c:110 | `b & 0x0F`: the lower nibble |
| `Bytes.Swap` | LCD_Programming_main.c:109 | `x << 4` OR `x >> 4` stored back into an `unsigned char`: the nibbles trade places (see `Bytes.SwapIsRotation`, `Bytes.SwapInvolution`) |
| `Bytes.Or` | LCD_Programming_main.c:112 | C's OR on two `unsigned char`s; its body proves the result fits a byte, and `Bytes.OrIsBitwise` proves it bitwise |
| `Bytes.WriteBit` | trafficLightMain.c:101-112 | a `PORTBbits.RBk = v` assignment on the whole port byte; its body proves the result fits a byte (see `Bytes.WriteBitBits`) |
| `Bytes.OrNatBound` | LCD_Programming_main.c:112 | OR-ing two k-bit numbers gives a k-bit number |
| `Bytes.ZeroHasNoBits` | trafficLightMain.c:89 | no bit of 0 is set (so `PORTB = 0` lights no lamp) |
| `Bytes.OrNatIsBitwise` | LCD_Programming_main.c:112 | every bit of the OR is set exactly when it is set in one operand |
| `Bytes.OrIsBitwise` | LCD_Programming_main.c:112 | the same for the byte OR, bits 0..7 |
| `Bytes.OrNatPow2` | LCD_Programming_main.c:112 | OR-ing a k-bit number with bit k adds 2^k |
| `Bytes.WriteBitNatBits` | trafficLightMain.c:101 | assigning bit k sets bit k to the value and leaves every other bit as it was |
| `Bytes.WriteBitNatBound` | trafficLightMain.c:101 | assigning a bit below m keeps an m-bit number below 2^m |
| `Bytes.WriteBitBits` | trafficLightMain.c:82-84 | a bit-field assignment `PORTBbits.RBk = v` on a byte changes bit k to v and no other bit |
| `Bytes.BitsDetermine` | trafficLightMain.c:112 | two numbers below 2^m with the same m low bits are equal |
| `Bytes.BytesDetermine` | trafficLightMain.c:112 | two bytes with the same eight bits are equal |
| `Bytes.NibblesAreShifts` | LCD_Programming_main.c:109-110 | the nibble functions equal the C spellings `x >> 4`, `x & 0x0F` and the shift-and-OR swap truncated to eight bits |
| `Bytes.RotationByFour` | LCD_Programming_main.c:109 | shifting left by four OR shifting right by four, on eight bits, is the rotation left, and right, by four |
| `Bytes.SwapIsRotation` | LCD_Programming_main.c:109 | the nibble swap is the 8-bit rotation by four |
| `Bytes.NibbleSplit` | LCD_Programming_main.c:110 | both nibbles are below 16 and together make up the byte |
| `Bytes.SwapInvolution` | LCD_Programming_main.c:122-124 | swapping twice gives back the byte, so the copy equals the byte after two `sendInfo` calls |
| `Bytes.HighOfSwap` | LCD_Programming_main.c:109-110 | after a swap the high nibble is the former low nibble |
| `Bytes.LowOfSwap` | LCD_Programming_main.c:109-110 | after a swap the low nibble is the former high nibble |
| `Bytes.NibblesDetermineByte` | LCD_Programming_main.c:109-110 | two bytes are equal if and only if both their nibbles are |
| `Bytes.OrIntoBitFour` | LCD_Programming_main.c:112 | a nibble OR'd with the RS mask 0x00 or 0x10 is the nibble plus the mask |
| `Bus.WritesAppend` | LCD_Programming_main.c:114 | the port values of two runs of steps are those of the first, then those of the second |
| `Bus.WritesSingle` | LCD_Programming_main.c:114 | a transfer writes its value once; a delay writes nothing |
| `Bus.ElapsedAppend` | LCD_Programming_main.c:117 | delay time adds up over concatenated runs |
| `Bus.PinsAppend` | LCD_Programming_main.c:114-117 | pin activity of two runs is that of the first, then that of the second |
| `Bus.FramedPrepend` | LCD_Programming_main.c:114-117 | a port write, E high, E low, a delay, in front of well-framed activity is well framed |
| `Bus.StrobesTail` | LCD_Programming_main.c:114-117 | the tail of a run of transfers is a run of transfers |
| `Bus.StrobesFramed` | LCD_Programming_main.c:114-117 | a run of transfers is, at pin level, one port write, E pulsed 1 then 0, and one delay per transfer: four pin steps, one write and `ms` of delay each |
| `CString.Length` | LCD_Programming_main.c:162 | the index of the first NUL: the byte there is 0 and none before it is |
| `CString.Text` | LCD_Programming_main.c:160-168 | the characters `writeString` sends contain no NUL and, followed by the NUL, are a prefix of the string |
| `CString.TextOfLiteral` | LCD_Programming_main.c:190 | a string literal without NULs, with its terminator, is a C string whose text is the literal |
| `Glyphs.AllRows` | SpecCharProg_main.c:171-198 | the four glyph tables streamed in order are 32 rows |
| `Glyphs.TablesAreGlyphs` | SpecCharProg_main.c:106-152 | every row of the four glyph tables is below 0x20, a 5-pixel row, and each table has eight rows |
| `Hd44780.Decode` | LCD_Programming_main.c:73-84 | the controller's meaning of an instruction byte; exactly the byte 0 means nothing |
| `Hd44780.DecodeBits` | LCD_Programming_main.c:73-84 | the same on `bv8`, selected by the highest set bit |
| `Hd44780.DecodeEncode` | LCD_Programming_main.c:73-84 | decoding the byte of a well-formed instruction gives the instruction back |
| `Hd44780.DecodeEncodeBits` | LCD_Programming_main.c:73-84 | the same on `bv8` |
| `Hd44780.DefinedInstructions` | LCD_Programming_8Bit_main.c:75-87 | each `#define`d instruction byte means what its name says (function set 8-bit, two lines, entry mode increment, display on without cursor, clear, home, DDRAM 0x40 for line 2, blink, shifts, CGRAM 0, DDRAM 0) |
| `Hd44780.Tagged` | LCD_Programming_main.c:127-140 | one received item per byte sent |
| `Hd44780.InterfaceNibbles` | LCD_Programming_main.c:73-75 | whatever the undriven lines DB3..DB0 read, an upper nibble 0x3 latched in 8-bit mode is "function set, 8-bit" and an upper nibble 0x2 is "function set, 4-bit" |
| `Lcd4Bit.InitTable` | LCD_Programming_main.c:94-104 | the `lcdInitialize` table: eight entries, each a defined instruction |
| `Lcd4Bit.BytesSteps` | LCD_Programming_main.c:132-138 | the transfers of a run of bytes sent through `lcdOut` (the `setUpTheLCD` loop; the `writeString` loop at :162-167 likewise): byte `i` is transfer `2i`, its high nibble, and `2i+1`, its low nibble, each OR the mask |
| `Lcd4Bit.Latched` | LCD_Programming_main.c:110-114 | the byte the controller latches in 8-bit mode from one transfer: the port's low nibble on DB7..DB4, any value on the undriven DB3..DB0 |
| `Lcd4Bit.RsBitIsBitFour` | LCD_Programming_main.c:112-113 | the RS level of a port value is its bit 4, the bit `rsOr` sets |
| `Lcd4Bit.ByteSteps` | LCD_Programming_main.c:120-125 | the two transfers of `lcdOut`: high nibble, then low nibble, each OR the mask, each settled for the driver's delay |
| `Lcd4Bit.StartupWait` | LCD_Programming_main.c:129 | the `__delay_ms(32)` opening `setUpTheLCD`, absent where the program has none |
| `Lcd4Bit.UploadSteps` | SpecCharProg_main.c:165-203 | the transfers of `writeToGram`: CGRAM address as an instruction, the rows as data, DDRAM address as an instruction |
| `Lcd4Bit.ByteStepsOfSwap` | LCD_Programming_main.c:120-125 | the two `sendInfo` transfers, the second on the swapped copy, are the byte's high nibble then low nibble |
| `Lcd4Bit.BytesStepsSnoc` | LCD_Programming_main.c:132-138 | sending one more table entry extends the transfers by that entry's pair |
| `Lcd4Bit.NibbledSnoc` | LCD_Programming_main.c:132-138 | one more byte extends the port values by its two nibbles |
| `Lcd4Bit.BytesStepsAppend` | SpecCharProg_main.c:171-198 | sending one run of bytes after another is sending their concatenation |
| `Lcd4Bit.ByteWrites` | LCD_Programming_main.c:109-124 | one byte puts exactly two values on the port: `b >> 4` OR the mask, then `b & 0x0F` OR the mask |
| `Lcd4Bit.BytesWrites` | LCD_Programming_main.c:160-168 | a run of bytes puts exactly its nibble stream on the port, two values per byte, high nibble first |
| `Lcd4Bit.NibbledLength` | LCD_Programming_main.c:160-168 | k bytes make 2k port writes |
| `Lcd4Bit.NibbledAppend` | SpecCharProg_main.c:171-198 | the nibble stream of a concatenation is the concatenation of the nibble streams |
| `Lcd4Bit.BytesStrobes` | LCD_Programming_main.c:114-117 | every step of a run of bytes is a transfer settled for the driver's delay, two per byte |
| `Lcd4Bit.BytesTiming` | LCD_Programming_main.c:114-117 | every port write is followed by one E pulse and one delay; k bytes take 2k delays |
| `Lcd4Bit.NibbleCarriesMode` | LCD_Programming_main.c:110-112 | with the RS mask 0x00 or 0x10, both port values of a byte are below 0x20 and have bit 4 set exactly in data mode |
| `Lcd4Bit.NibbledCarriesMode` | LCD_Programming_main.c:110-114 | every port value of a run is below 0x20 (E and bits 7..6 low while the data is put out), and its bit 4 is set if and only if the mask is 0x10 |
| `Lcd4Bit.JoinNibbles` | LCD_Programming_main.c:107-125 | the controller joins the two transfers of a byte back into that byte, in the mode that was set |
| `Lcd4Bit.RoundTrip` | LCD_Programming_main.c:107-125 | the controller receives exactly the bytes sent, in order, each in the mode that was set |
| `Lcd4Bit.ReassembleAppend` | LCD_Programming_main.c:107-125 | the controller reads even-length runs pair by pair, independently |
| `Lcd4Bit.InstructionNibbles` | LCD_Programming_main.c:142-158 | `line2` writes 0x0C, 0x00; clear-and-home writes 0x00, 0x01, 0x00, 0x02; return home writes 0x00, 0x02 |
| `Lcd4Bit.InstructionByte` | LCD_Programming_main.c:131-136 | with RS clear a byte goes out as its bare nibbles |
| `Lcd4Bit.HeadNibbles` | LCD_Programming_main.c:96-98 | the first three table bytes put 0x3, 0x3, 0x3, 0x3, 0x3, 0x2 on the port |
| `Lcd4Bit.TailNibbles` | LCD_Programming_main.c:99-103 | the last five table bytes put 0x2, 0xC, 0x0, 0x6, 0x0, 0xC, 0x0, 0x1, 0x0, 0x2 on the port |
| `Lcd4Bit.InitNibbles` | LCD_Programming_main.c:94-104 | `setUpTheLCD` makes exactly sixteen port writes, all with RS clear, and which ones |
| `Lcd4Bit.InitSplit` | LCD_Programming_main.c:94-104 | the sixteen values split into those of the first three bytes and those of the other five |
| `Lcd4Bit.InitFollowsProcedure` | LCD_Programming_main.c:94-98 | while the controller is in 8-bit mode it latches "function set, 8-bit" five times, then "function set, 4-bit", whatever DB3..DB0 read; this is the interface-setting part of the "initializing by instruction" procedure |
| `Lcd4Bit.ModeAfterDecodes` | LCD_Programming_main.c:96-99 | the controller's interface width (`ModeAfter`) changes only when a function set arrives as an instruction, and then to the width it names in the instruction table |
| `Lcd4Bit.Feed` | LCD_Programming_main.c:107-118 | one `sendInfo` transfer as the controller takes it: latched whole in 8-bit mode, held or joined with the held half in 4-bit mode; it delivers nothing exactly when it leaves half a pair waiting |
| `Lcd4Bit.Read` | LCD_Programming_main.c:120-125 | a run of transfers read from a consistent state (half a pair waits only in 4-bit mode) leaves the controller in a consistent state |
| `Lcd4Bit.ReadDelivers` | LCD_Programming_main.c:120-125 | a run of transfers delivers at most one instruction or character per transfer |
| `Lcd4Bit.ReadAppend` | LCD_Programming_main.c:132-138 | reading one run after another is reading their concatenation |
| `Lcd4Bit.PairRead` | LCD_Programming_main.c:120-125 | in 4-bit mode on a pair boundary, `lcdOut`'s two transfers deliver the byte with its RS level, and the mode stays unless the byte is an 8-bit function set instruction |
| `Lcd4Bit.FourBitReads` | LCD_Programming_main.c:132-138 | in 4-bit mode on a pair boundary, a run of bytes (none an 8-bit function set instruction) is delivered exactly and leaves the controller on a pair boundary |
| `Lcd4Bit.LatchInterface` | LCD_Programming_main.c:96-98 | in 8-bit mode a transfer 0x3 keeps 8-bit mode and a transfer 0x2 selects 4-bit mode, whatever DB3..DB0 read |
| `Lcd4Bit.EightBitHead` | LCD_Programming_main.c:96-98 | from 8-bit mode, transfers 0x3 and then 0x2 end in 4-bit mode on a pair boundary |
| `Lcd4Bit.FourBitHead` | LCD_Programming_main.c:96-98 | from 4-bit mode on a pair boundary, 0x3, 0x3 join into "function set, 8-bit", and the rest ends in 4-bit mode on a pair boundary |
| `Lcd4Bit.InitHeadForcesFourBit` | LCD_Programming_main.c:96-98 | from any consistent state (8-bit, 4-bit on a pair boundary, 4-bit with half a pair waiting), the six transfers of the first three table bytes end in 4-bit mode on a pair boundary |
| `Lcd4Bit.InitFromAnyState` | LCD_Programming_main.c:127-140 | from any consistent state, the sixteen start-up transfers end in 4-bit mode on a pair boundary and their last ten deliver two lines, increment, display on, clear and home as instructions |
| `Lcd4Bit.InitConfigures` | LCD_Programming_main.c:99-103 | from the seventh write on, the controller receives two lines, increment, display on, clear and home, as instructions |
| `Lcd4Bit.UploadWrites` | SpecCharProg_main.c:165-203 | `writeToGram` writes 0x04, 0x00 (CGRAM 0), every row as two data nibbles, then 0x08, 0x00 (DDRAM 0) |
| `Lcd4Bit.UploadRsLine` | SpecCharProg_main.c:165-203 | of its 2·rows + 4 port values (68 for the 32 rows) exactly the first two and the last two have RS clear |
| `Lcd4Bit.ReassemblePair` | SpecCharProg_main.c:167-169 | two transfers are read as one byte |
| `Lcd4Bit.ReassembleFramed` | SpecCharProg_main.c:165-203 | a run framed by one pair in front and one behind is read as the front byte, the run, the back byte |
| `Lcd4Bit.UploadReceived` | SpecCharProg_main.c:165-203 | the controller receives the CGRAM address 0x40 as an instruction, the rows in order as data, then the DDRAM address 0x80 as an instruction |
| `Lcd4Bit.Driver.ForLcdProgramming` | LCD_Programming_main.c:91-92 | zeroed globals with RS mask 0x00; the demo's 2 ms transfer delay and 32 ms start-up wait |
| `Lcd4Bit.Driver.ForVoltMeter` | VoltMeter_main.c:89-90 | zeroed globals; the volt meter's 3 ms transfer delay and 32 ms start-up wait |
| `Lcd4Bit.Driver.ForSpecialCharacters` | SpecCharProg_main.c:39-40 | zeroed globals; a 3 ms transfer delay and no wait inside `setUpTheLCD` |
| `Lcd4Bit.Driver.SendNibble` | LCD_Programming_main.c:107-118 | `sendInfo`/`sendData` (also VoltMeter_main.c:126-135, SpecCharProg_main.c:56-65): the copy is swapped, the port gets the copy's former high nibble OR the mask, one transfer is appended, the mask stays a mode |
| `Lcd4Bit.Driver.LcdOut` | LCD_Programming_main.c:120-125 | `lcdOut` (also VoltMeter_main.c:137-142, SpecCharProg_main.c:67-72): the byte's two transfers are appended; the copy ends equal to the byte; `lcdInfo` is overwritten with the last port value |
| `Lcd4Bit.Driver.SendEntry` | LCD_Programming_main.c:134-136 | one loop step: the run sent so far grows by the next entry |
| `Lcd4Bit.Driver.SendTable` | LCD_Programming_main.c:130-138 | a `while (n < 8)` loop: the eight entries in index order, mask unchanged, `n` ends at 8 |
| `Lcd4Bit.Driver.SetUp` | LCD_Programming_main.c:127-140 | `setUpTheLCD` (also VoltMeter_main.c:144-157, SpecCharProg_main.c:74-86): the start-up wait where the program has one, the eight table bytes as instructions in order, then data mode |
| `Lcd4Bit.Driver.Line2` | LCD_Programming_main.c:142-148 | `line2` (also VoltMeter_main.c:159-165, SpecCharProg_main.c:88-94): 0xC0 as an instruction, then data mode |
| `Lcd4Bit.Driver.ClearTheScreen` | LCD_Programming_main.c:150-158 | `cleartheScreen` (also VoltMeter_main.c:167-175, SpecCharProg_main.c:154-163): clear then home as instructions, then data mode |
| `Lcd4Bit.Driver.GoHome` | VoltMeter_main.c:177-183 | `gohome`: return home alone as an instruction, then data mode |
| `Lcd4Bit.Driver.WriteString` | LCD_Programming_main.c:160-168 | `writeString` (also VoltMeter_main.c:185-193, SpecCharProg_main.c:96-104): the characters before the first NUL, in order, with the mask as it stands; mask unchanged |
| `Lcd4Bit.Driver.SendGlyphs` | SpecCharProg_main.c:171-198 | the four table loops: the four glyphs' rows in order, mask unchanged |
| `Lcd4Bit.Driver.WriteToGram` | SpecCharProg_main.c:165-203 | `writeToGram`: CGRAM address 0x40 as an instruction, the 32 rows as data, DDRAM address 0x80 as an instruction, then data mode |
| `Lcd8Bit.FrameSteps` | LCD_Programming_8Bit_main.c:111-129 | a run of 8-bit `lcdOut` calls: one transfer per byte, in order, each with the RS level |
| `Lcd8Bit.FrameStepsSnoc` | LCD_Programming_8Bit_main.c:124-129 | sending one more byte extends the transfers by one |
| `Lcd8Bit.FramesWrites` | LCD_Programming_8Bit_main.c:111-117 | a run of bytes is written unchanged, one port write per byte, in order, each with the RS level that was set |
| `Lcd8Bit.FramesReceived` | LCD_Programming_8Bit_main.c:111-117 | the controller receives exactly the bytes sent, in order, each in the mode that was set |
| `Lcd8Bit.FramesStrobes` | LCD_Programming_8Bit_main.c:113-116 | every step of a run is a transfer settled for 2 ms, one per byte |
| `Lcd8Bit.FramesTiming` | LCD_Programming_8Bit_main.c:113-116 | every write is followed by one E pulse and a 2 ms delay (which pin carries E is abstracted) |
| `Lcd8Bit.InitTable` | LCD_Programming_8Bit_main.c:98-107 | the seven-entry `lcdInitialize` table, each entry a defined instruction |
| `Lcd8Bit.InitProcedure` | LCD_Programming_8Bit_main.c:98-107 | the seven-byte table is function set 8-bit twice, function set 8-bit two lines, increment, display with cursor and blink, clear, home |
| `Lcd8Bit.Driver.constructor` | LCD_Programming_8Bit_main.c:95-96 | zeroed globals; RS low as `PORTA = 0` leaves it |
| `Lcd8Bit.Driver.LcdOut` | LCD_Programming_8Bit_main.c:111-117 | `lcdOut`: one transfer of `lcdInfo` as it is, with the RS level; nothing else changes |
| `Lcd8Bit.Driver.SendEntry` | LCD_Programming_8Bit_main.c:126-127 | one loop step: the run sent so far grows by the next byte |
| `Lcd8Bit.Driver.SetUp` | LCD_Programming_8Bit_main.c:119-131 | `setUpTheLCD`: 33 ms, the seven table bytes with RS low in order, then RS high |
| `Lcd8Bit.Driver.Line2` | LCD_Programming_8Bit_main.c:133-139 | `line2`: 0xC0 once with RS low, then RS high |
| `Lcd8Bit.Driver.WriteString` | LCD_Programming_8Bit_main.c:141-149 | `writeString`: each character before the first NUL written as it is, in order, RS unchanged |
| `Lcd8Bit.Driver.ClearTheScreen` | LCD_Programming_8Bit_main.c:151-159 | `clearTheScreen`: 0x01 then 0x02 with RS low, then RS high |
| `Lcd8Bit.InstructionFrames` | LCD_Programming_8Bit_main.c:133-159 | the controller receives line 2's DDRAM address, and clear then home, as instructions |
| `TrafficLight.TotalWaitAppend` | trafficLightMain.c:102-111 | delay time adds up over concatenated runs |
| `TrafficLight.TotalWaitOf` | trafficLightMain.c:102-111 | the delay time of four events is the sum of theirs |
| `TrafficLight.SafeAppend` | trafficLightMain.c:99-114 | two runs without red and green together make one |
| `TrafficLight.PassPorts` | trafficLightMain.c:101-112 | one pass of the loop body makes eight lamp writes |
| `TrafficLight.Pass` | trafficLightMain.c:101-112 | the order of the loop body: each lamp write and each delay (5000, 2000, 5000, 2000 ms) where the body has it |
| `TrafficLight.CycleEvents` | trafficLightMain.c:101-112 | one pass of the loop body from a given port value |
| `TrafficLight.PassSteps` | trafficLightMain.c:101-112 | the statements of the body, one at a time, make up one pass |
| `TrafficLight.WriteLamp` | trafficLightMain.c:82-84 | a lamp assignment changes that lamp only and no bit above RB2 |
| `TrafficLight.PassLamps` | trafficLightMain.c:101-112 | from any lamps, the lamps after each of the eight writes, and bits 7..3 kept by all of them |
| `TrafficLight.CycleLamps` | trafficLightMain.c:101-112 | from lamps off, the lamps after each write are red; red+amber; amber; off; green; off; amber; off, and the four delays hold red, red+amber, green, amber |
| `TrafficLight.CycleRestores` | trafficLightMain.c:105-112 | a pass that starts with the lamps off ends on the port value it started from |
| `TrafficLight.CycleUpper` | trafficLightMain.c:82-84 | only RB0..RB2 are written: every port value keeps bits 7..3 |
| `TrafficLight.CycleSafe` | trafficLightMain.c:101-112 | red and green are never lit together during a pass |
| `TrafficLight.PassTime` | trafficLightMain.c:102-111 | the delays of a pass are 5000 + 2000 + 5000 + 2000 ms |
| `TrafficLight.CycleTime` | trafficLightMain.c:102-111 | one pass takes 14000 ms of delays |
| `TrafficLight.Repeat` | trafficLightMain.c:99-114 | the loop run for k passes: k copies of one pass, in order |
| `TrafficLight.RepeatSafe` | trafficLightMain.c:99-114 | repeating a run without red and green together keeps it so |
| `TrafficLight.RepeatTime` | trafficLightMain.c:99-114 | k repetitions take k times the delays of one |
| `TrafficLight.Controller.constructor` | trafficLightMain.c:89 | `PORTB = 0`: all lamps off |
| `TrafficLight.Controller.SetLamp` | trafficLightMain.c:101 | a lamp assignment: bit k of PORTB becomes the value, recorded as one write |
| `TrafficLight.Controller.Pause` | trafficLightMain.c:102 | `__delay_ms`: one delay, port unchanged |
| `TrafficLight.Controller.Cycle` | trafficLightMain.c:101-112 | one pass of the body appends exactly its events and leaves PORTB as it was, lamps off |
| `TrafficLight.Controller.Run` | trafficLightMain.c:99-114 | the loop cut off after any number of passes: the trace grows by exactly that many copies of one pass and the port is unchanged, so red and green are never lit together and each pass adds 14000 ms of delays |

## Left out

- The `#pragma config` fuse settings and the TRIS, ADCON, OSCCON, OSCTUNE and T0CON writes (in every `main` and in VoltMeter_main.c:96-112). They are one-shot register writes with no logic.
- `systemVoltage` and `displayVoltage` (VoltMeter_main.c:195-209). They poll the ADC and do float arithmetic through `sprintf`, whose code is not part of this model.
- The demo `main` sequences and the wait on `startButton` (SpecCharProg_main.c:226). They are infinite loops and hardware input. Had they been modelled, the literal `0b001110001` at LCD_Programming_main.c:196 has nine digits; assigned to an `unsigned char` it becomes 0x71 ('q'), not the '9' its comment names.
- SampleProgramDebugging_main.c: a straight-line demonstration of C operators with nothing to specify.
- Real time. `__delay_ms` is recorded as a step with its argument, and the delays are added up; the clock itself is not modelled.
- The unused 8-bit globals `lcdTempInfo` and `rsLine`, and the `str[80]` buffers. These are unused in LCD_Programming_main.c:93 and LCD_Programming_8Bit_main.c:97; in the volt meter (VoltMeter_main.c:91) only the left-out `displayVoltage` uses it.
- The minimum waits of the "initializing by instruction" procedure. The start-up lemmas prove the order and meaning of the instructions only; the code waits just one transfer delay (2 or 3 ms) between them.
- The E pin is not a field. Each transfer records the port write, E high, E low and the delay together (`Bus.Step`, expanded by `Bus.Pins`).
- Lcd4Bit.Driver.Valid: says only that the RS mask is 0x00 or 0x10. That every port value is below 0x20 with bit 4 equal to RS is stated about the trace by `Lcd4Bit.NibbledCarriesMode`, not kept as a class invariant.
- TrafficLight.Controller.Run: the `while (1)` loop runs forever; the model runs it for a given number of passes and states the trace after them.
- The `n` loop counters are `nat`. They never exceed 8, so the `unsigned char` never wraps.
- Bytes.Or: defined on naturals, lowest bit first, rather than on `bv8`. The bitwise meaning is proved by `Bytes.OrNatIsBitwise`.

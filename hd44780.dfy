/** The HD44780 controller's instruction set as the drivers use it: the
    instruction bytes that the firmware names with `#define`, and the
    meaning the controller's instruction table gives to each byte. */
module Hd44780 {
  import opened Bytes

  datatype Option<T> = None | Some(value: T)

  /** One instruction of the controller's instruction table. */
  datatype Instruction =
    | ClearDisplay
    | ReturnHome
    | EntryModeSet(increment: bool, shiftDisplay: bool)
    | DisplayControl(displayOn: bool, cursorOn: bool, blinkOn: bool)
    | CursorOrDisplayShift(moveDisplay: bool, right: bool)
    | FunctionSet(eightBit: bool, twoLines: bool, font5x10: bool)
    | SetCgramAddress(cgAddress: bv8)
    | SetDdramAddress(ddAddress: bv8)

  // The instruction bytes defined by the LCD programs.
  const FirstByte: byte := 0x33
  const SecondByte: byte := 0x33
  const FourBitOp: byte := 0x32
  const TwoLines: byte := 0x2C
  const IncPosition: byte := 0x06
  const CursorNoBlink: byte := 0x0C
  const ClearScreen: byte := 0x01
  const ReturnHomeCode: byte := 0x02
  const LineTwo: byte := 0xC0
  const DoBlink: byte := 0x0F
  const ShiftLeft: byte := 0x10
  const ShiftRight: byte := 0x14
  const Lines2Bits8: byte := 0x3C
  const EightBitOp: byte := 0x38
  /** The literal `writeToGram` sends before the glyph rows. */
  const CgramStart: byte := 0x40
  /** The literal `writeToGram` sends after the glyph rows. */
  const DdramStart: byte := 0x80

  /** Bit `k` of `b` (bit 0 is the least significant). */
  predicate IsSet(b: bv8, k: nat)
    requires k < 8
  {
    b & (1 as bv8 << k) != 0
  }

  /** What the controller does with instruction byte `b`: the highest set
      bit selects the instruction, the bits below it are its parameters;
      0x00 is no instruction. */
  function Decode(code: byte): (r: Option<Instruction>)
    ensures r.None? <==> code == 0
  {
    DecodeBits(code as bv8)
  }

  function DecodeBits(b: bv8): (r: Option<Instruction>)
    ensures r.None? <==> b == 0
  {
    if IsSet(b, 7) then Some(SetDdramAddress(b & 0x7F))
    else if IsSet(b, 6) then Some(SetCgramAddress(b & 0x3F))
    else if IsSet(b, 5) then Some(FunctionSet(IsSet(b, 4), IsSet(b, 3), IsSet(b, 2)))
    else if IsSet(b, 4) then Some(CursorOrDisplayShift(IsSet(b, 3), IsSet(b, 2)))
    else if IsSet(b, 3) then Some(DisplayControl(IsSet(b, 2), IsSet(b, 1), IsSet(b, 0)))
    else if IsSet(b, 2) then Some(EntryModeSet(IsSet(b, 1), IsSet(b, 0)))
    else if IsSet(b, 1) then Some(ReturnHome)
    else if IsSet(b, 0) then Some(ClearDisplay)
    else None
  }

  /** Addresses fit their fields: six bits of CGRAM, seven of DDRAM. */
  predicate WellFormed(i: Instruction)
  {
    match i
    case SetCgramAddress(a) => a < 0x40
    case SetDdramAddress(a) => a < 0x80
    case _ => true
  }

  function Flag(c: bool, k: nat): bv8
    requires k < 8
  {
    if c then 1 as bv8 << k else 0
  }

  /** The instruction byte with every "don't care" bit clear. */
  function Encode(i: Instruction): byte
    requires WellFormed(i)
  {
    EncodeBits(i) as byte
  }

  function EncodeBits(i: Instruction): bv8
    requires WellFormed(i)
  {
    match i
    case ClearDisplay => 0x01
    case ReturnHome => 0x02
    case EntryModeSet(id, s) => 0x04 | Flag(id, 1) | Flag(s, 0)
    case DisplayControl(d, c, b) => 0x08 | Flag(d, 2) | Flag(c, 1) | Flag(b, 0)
    case CursorOrDisplayShift(sc, rl) => 0x10 | Flag(sc, 3) | Flag(rl, 2)
    case FunctionSet(dl, n, f) => 0x20 | Flag(dl, 4) | Flag(n, 3) | Flag(f, 2)
    case SetCgramAddress(a) => 0x40 | a
    case SetDdramAddress(a) => 0x80 | a
  }

  /** Decoding an encoded instruction gives it back. */
  lemma DecodeEncode(i: Instruction)
    requires WellFormed(i)
    ensures Decode(Encode(i)) == Some(i)
  {
    DecodeEncodeBits(i);
    assert Encode(i) as bv8 == EncodeBits(i);
  }

  lemma DecodeEncodeBits(i: Instruction)
    requires WellFormed(i)
    ensures DecodeBits(EncodeBits(i)) == Some(i)
  {
    match i
    case ClearDisplay =>
    case ReturnHome =>
    case EntryModeSet(id, s) =>
    case DisplayControl(d, c, b) =>
    case CursorOrDisplayShift(sc, rl) =>
    case FunctionSet(dl, n, f) =>
    case SetCgramAddress(a) =>
    case SetDdramAddress(a) =>
  }

  /** Each defined byte means what its name says. */
  lemma DefinedInstructions()
    ensures Decode(FirstByte) == Some(FunctionSet(true, false, false))
    ensures Decode(SecondByte) == Decode(FirstByte)
    ensures Decode(TwoLines) == Some(FunctionSet(false, true, true))
    ensures Decode(IncPosition) == Some(EntryModeSet(true, false))
    ensures Decode(CursorNoBlink) == Some(DisplayControl(true, false, false))
    ensures Decode(ClearScreen) == Some(ClearDisplay)
    ensures Decode(ReturnHomeCode) == Some(ReturnHome)
    ensures Decode(LineTwo) == Some(SetDdramAddress(0x40))
    ensures Decode(DoBlink) == Some(DisplayControl(true, true, true))
    ensures Decode(ShiftLeft) == Some(CursorOrDisplayShift(false, false))
    ensures Decode(ShiftRight) == Some(CursorOrDisplayShift(false, true))
    ensures Decode(Lines2Bits8) == Some(FunctionSet(true, true, true))
    ensures Decode(EightBitOp) == Some(FunctionSet(true, true, false))
    ensures Decode(CgramStart) == Some(SetCgramAddress(0))
    ensures Decode(DdramStart) == Some(SetDdramAddress(0))
  {
  }

  /** `code` is a function set choosing the 8-bit interface when `eightBit`
      holds and the 4-bit interface otherwise. */
  predicate SetsInterface(code: byte, eightBit: bool)
  {
    Decode(code).Some? && Decode(code).value.FunctionSet? &&
    Decode(code).value.eightBit == eightBit
  }

  /** In 4-bit wiring only DB7..DB4 are driven; DB3..DB0 may read anything
      (`x`). Whatever they read, a latched upper nibble 0x3 is "function set,
      8-bit interface" and a latched upper nibble 0x2 is "function set,
      4-bit interface". */
  lemma InterfaceNibbles(x: byte)
    requires x < 16
    ensures SetsInterface(0x30 + x, true)
    ensures SetsInterface(0x20 + x, false)
  {
    assert (0x30 + x) as bv8 == 0x30 | x as bv8;
    assert (0x20 + x) as bv8 == 0x20 | x as bv8;
  }

  /** What the controller receives from one complete transfer: the level of
      RS (data when high, instruction when low) and the eight-bit code. */
  datatype Received = Received(isData: bool, code: byte)

  /** The bytes of `bs`, each with the given RS level. */
  function Tagged(bs: seq<byte>, isData: bool): (r: seq<Received>)
    ensures |r| == |bs|
    decreases |bs|
  {
    if bs == [] then []
    else Tagged(bs[..|bs| - 1], isData) + [Received(isData, bs[|bs| - 1])]
  }
}

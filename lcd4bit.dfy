/** The HD44780 driver in 4-bit bus mode, written out three times in the
    repository (the LCD demo, the volt meter and the special-character
    program). PORTB bits 3..0 carry a nibble to the controller's DB7..DB4,
    bit 4 is RS and bit 5 is E. The three copies differ only in the delay
    after each transfer and in whether `setUpTheLCD` waits for the display
    to power up, so they share this class; one constructor per program
    fixes those two constants. */
module Lcd4Bit {
  import opened Bus
  import opened Seqs
  import opened Bytes
  import opened CString
  import opened Hd44780
  import Glyphs

  /** `rsOr`/`rsLine` while instructions are sent (RS low). */
  const InstructionMode: byte := 0x00
  /** `rsOr`/`rsLine` while characters are sent (RS, bit 4, high). */
  const DataMode: byte := 0x10

  predicate IsMode(rs: byte)
  {
    rs == InstructionMode || rs == DataMode
  }

  /** The `lcdInitialize` table, sent by `setUpTheLCD` in index order:
      eight entries, each a defined instruction. */
  function InitTable(): (t: seq<byte>)
    ensures |t| == 8
    ensures forall i :: 0 <= i < |t| ==> Decode(t[i]).Some?
  {
    [FirstByte, SecondByte, FourBitOp, TwoLines, IncPosition, CursorNoBlink, ClearScreen, ReturnHomeCode]
  }

  // ---------------------------------------------------------------------
  // What the bus carries for one byte and for a run of bytes

  /** One byte in 4-bit mode: two transfers, high nibble first, each OR'd
      with the RS mask. */
  function ByteSteps(b: byte, rs: byte, ms: nat): seq<Step<byte>>
  {
    [Strobe(Or(High(b), rs), ms), Strobe(Or(Low(b), rs), ms)]
  }

  /** The bytes of `bs`, in order: byte `i` is transfers `2 * i` (high
      nibble) and `2 * i + 1` (low nibble). */
  function BytesSteps(bs: seq<byte>, rs: byte, ms: nat): (r: seq<Step<byte>>)
    ensures |r| == 2 * |bs|
    ensures forall i :: 0 <= i < |bs| ==>
      r[2 * i] == Strobe(Or(High(bs[i]), rs), ms) && r[2 * i + 1] == Strobe(Or(Low(bs[i]), rs), ms)
    decreases |bs|
  {
    if bs == [] then []
    else BytesSteps(bs[..|bs| - 1], rs, ms) + ByteSteps(bs[|bs| - 1], rs, ms)
  }

  /** The port values for `bs`: two per byte, high nibble then low nibble,
      each OR'd with the RS mask. */
  function Nibbled(bs: seq<byte>, rs: byte): seq<byte>
    decreases |bs|
  {
    if bs == [] then []
    else Nibbled(bs[..|bs| - 1], rs) + [Or(High(bs[|bs| - 1]), rs), Or(Low(bs[|bs| - 1]), rs)]
  }

  /** Two `sendInfo` calls, the second on the swapped copy, send one byte. */
  lemma ByteStepsOfSwap(t: seq<Step<byte>>, b: byte, rs: byte, ms: nat)
    ensures t + [Strobe(Or(High(b), rs), ms)] + [Strobe(Or(High(Swap(b)), rs), ms)] == t + ByteSteps(b, rs, ms)
  {
    HighOfSwap(b);
  }

  lemma BytesStepsSnoc(bs: seq<byte>, i: nat, rs: byte, ms: nat)
    requires i < |bs|
    ensures BytesSteps(bs[..i + 1], rs, ms) == BytesSteps(bs[..i], rs, ms) + ByteSteps(bs[i], rs, ms)
  {
    assert bs[..i + 1][..i] == bs[..i];
  }

  lemma NibbledSnoc(bs: seq<byte>, i: nat, rs: byte)
    requires i < |bs|
    ensures Nibbled(bs[..i + 1], rs) == Nibbled(bs[..i], rs) + [Or(High(bs[i]), rs), Or(Low(bs[i]), rs)]
  {
    assert bs[..i + 1][..i] == bs[..i];
  }

  /** Sending `a` and then `b` is sending `a + b`. */
  lemma {:induction false} BytesStepsAppend(a: seq<byte>, b: seq<byte>, rs: byte, ms: nat)
    ensures BytesSteps(a + b, rs, ms) == BytesSteps(a, rs, ms) + BytesSteps(b, rs, ms)
    decreases |b|
  {
    if b == [] {
      assert a + b == a;
    } else {
      var b' := b[..|b| - 1];
      assert (a + b)[..|a + b| - 1] == a + b';
      assert (a + b)[|a + b| - 1] == b[|b| - 1];
      BytesStepsAppend(a, b', rs, ms);
    }
  }

  /** One byte writes its high nibble, then its low nibble. */
  lemma ByteWrites(b: byte, rs: byte, ms: nat)
    ensures Writes(ByteSteps(b, rs, ms)) == [Or(High(b), rs), Or(Low(b), rs)]
  {
    var s0, s1 := Strobe(Or(High(b), rs), ms), Strobe(Or(Low(b), rs), ms);
    assert ByteSteps(b, rs, ms) == [s0] + [s1];
    WritesAppend([s0], [s1]);
    WritesSingle(s0);
    WritesSingle(s1);
  }

  /** The port is written exactly the nibble stream of `bs`: two writes per
      byte, high nibble first, each carrying the RS mask. */
  lemma {:induction false} BytesWrites(bs: seq<byte>, rs: byte, ms: nat)
    ensures Writes(BytesSteps(bs, rs, ms)) == Nibbled(bs, rs)
    decreases |bs|
  {
    if bs != [] {
      var init := bs[..|bs| - 1];
      var last := bs[|bs| - 1];
      BytesWrites(init, rs, ms);
      WritesAppend(BytesSteps(init, rs, ms), ByteSteps(last, rs, ms));
      ByteWrites(last, rs, ms);
    }
  }

  lemma {:induction false} NibbledLength(bs: seq<byte>, rs: byte)
    ensures |Nibbled(bs, rs)| == 2 * |bs|
    decreases |bs|
  {
    if bs != [] {
      NibbledLength(bs[..|bs| - 1], rs);
    }
  }

  lemma {:induction false} NibbledAppend(a: seq<byte>, b: seq<byte>, rs: byte)
    ensures Nibbled(a + b, rs) == Nibbled(a, rs) + Nibbled(b, rs)
    decreases |b|
  {
    if b == [] {
      assert a + b == a;
    } else {
      var b' := b[..|b| - 1];
      assert (a + b)[..|a + b| - 1] == a + b';
      assert (a + b)[|a + b| - 1] == b[|b| - 1];
      NibbledAppend(a, b', rs);
    }
  }

  /** Every step of a run of bytes is a transfer settled for the driver's
      delay, two per byte. */
  lemma {:induction false} BytesStrobes(bs: seq<byte>, rs: byte, ms: nat)
    ensures Strobes(BytesSteps(bs, rs, ms), ms) && |BytesSteps(bs, rs, ms)| == 2 * |bs|
    decreases |bs|
  {
    if bs != [] {
      var init := bs[..|bs| - 1];
      BytesStrobes(init, rs, ms);
      var t := BytesSteps(bs, rs, ms);
      var pair := ByteSteps(bs[|bs| - 1], rs, ms);
      assert t == BytesSteps(init, rs, ms) + pair;
      assert forall i :: |t| - 2 <= i < |t| ==> t[i] == pair[i - (|t| - 2)];
    }
  }

  /** A run of bytes pulses E once after every port write and then waits;
      it takes two delays per byte. */
  lemma BytesTiming(bs: seq<byte>, rs: byte, ms: nat)
    ensures Framed(Pins(BytesSteps(bs, rs, ms)), ms)
    ensures |Pins(BytesSteps(bs, rs, ms))| == 4 * (2 * |bs|)
    ensures Elapsed(BytesSteps(bs, rs, ms)) == ms * (2 * |bs|)
  {
    BytesStrobes(bs, rs, ms);
    StrobesFramed(BytesSteps(bs, rs, ms), ms);
  }

  /** Bit 4 of a port value: the level of the RS line. */
  predicate RsBit(v: byte)
  {
    (v / 16) % 2 == 1
  }

  /** The RS level is bit 4 of the port value in the sense of `Bytes.Bit`. */
  lemma RsBitIsBitFour(v: byte)
    ensures RsBit(v) <==> BitOf(v, 4)
  {
    var x := v as nat;
    assert x / 2 / 2 / 2 / 2 == x / 16;
    assert Bit(x, 4) == Bit(x / 2, 3) == Bit(x / 2 / 2, 2)
      == Bit(x / 2 / 2 / 2, 1) == Bit(x / 2 / 2 / 2 / 2, 0);
  }

  lemma NibbleCarriesMode(b: byte, rs: byte)
    requires IsMode(rs)
    ensures Or(High(b), rs) < 0x20 && (RsBit(Or(High(b), rs)) <==> rs == DataMode)
    ensures Or(Low(b), rs) < 0x20 && (RsBit(Or(Low(b), rs)) <==> rs == DataMode)
  {
    NibbleSplit(b);
    OrIntoBitFour(High(b), rs);
    OrIntoBitFour(Low(b), rs);
    MaskedNibble(High(b), rs);
    MaskedNibble(Low(b), rs);
  }

  /** With RS mask 0x00 or 0x10 every port value is below 0x20, so E
      (bit 5) and bits 7..6 stay low while data is written, and its bit 4
      is the RS mask. */
  lemma {:induction false} NibbledCarriesMode(bs: seq<byte>, rs: byte)
    requires IsMode(rs)
    ensures forall v :: v in Nibbled(bs, rs) ==> v < 0x20 && (RsBit(v) <==> rs == DataMode)
    decreases |bs|
  {
    if bs != [] {
      NibbledCarriesMode(bs[..|bs| - 1], rs);
      NibbleCarriesMode(bs[|bs| - 1], rs);
    }
  }

  // ---------------------------------------------------------------------
  // The controller's side: reassembling nibble pairs in 4-bit mode

  /** What the controller latches from two transfers in 4-bit mode: RS from
      the first, the instruction or character from both nibbles. */
  function Join(hi: byte, lo: byte): Received
  {
    Received(RsBit(hi), Low(hi) * 16 + Low(lo))
  }

  /** The controller's reading of a run of transfers, pair by pair. It is
      applied only to even-length runs (every byte goes out as two
      transfers). On an odd-length run this definition pairs from the end
      and leaves the FIRST transfer unread, whereas the controller would
      leave the last one pending; no lemma here depends on that case. */
  function Reassemble(ws: seq<byte>): seq<Received>
    decreases |ws|
  {
    if |ws| < 2 then []
    else Reassemble(ws[..|ws| - 2]) + [Join(ws[|ws| - 2], ws[|ws| - 1])]
  }

  /** A nibble OR the RS mask keeps the nibble as its low four bits and
      carries the mask's RS level. */
  lemma MaskedNibble(v: byte, rs: byte)
    requires v < 16 && IsMode(rs)
    ensures Low(v + rs) == v && (RsBit(v + rs) <==> rs == DataMode)
  {
    if rs == DataMode {
      assert (v + 16) % 16 == v && (v + 16) / 16 == 1;
    } else {
      assert v % 16 == v && v / 16 == 0;
    }
  }

  lemma JoinNibbles(b: byte, rs: byte)
    requires IsMode(rs)
    ensures Join(Or(High(b), rs), Or(Low(b), rs)) == Received(rs == DataMode, b)
  {
    NibbleSplit(b);
    var h, l := High(b), Low(b);
    OrIntoBitFour(h, rs);
    OrIntoBitFour(l, rs);
    MaskedNibble(h, rs);
    MaskedNibble(l, rs);
    assert Join(h + rs, l + rs) == Received(rs == DataMode, h * 16 + l);
  }

  /** The controller receives exactly the bytes sent, in order, each with
      the RS level that was set: the nibble split is undone. */
  lemma {:induction false} RoundTrip(bs: seq<byte>, rs: byte)
    requires IsMode(rs)
    ensures Reassemble(Nibbled(bs, rs)) == Tagged(bs, rs == DataMode)
    decreases |bs|
  {
    NibbledLength(bs, rs);
    if bs != [] {
      var init := bs[..|bs| - 1];
      var last := bs[|bs| - 1];
      RoundTrip(init, rs);
      var w := Nibbled(bs, rs);
      assert w[..|w| - 2] == Nibbled(init, rs);
      JoinNibbles(last, rs);
    }
  }

  lemma {:induction false} ReassembleAppend(a: seq<byte>, b: seq<byte>)
    requires |a| % 2 == 0 && |b| % 2 == 0
    ensures Reassemble(a + b) == Reassemble(a) + Reassemble(b)
    decreases |b|
  {
    if b == [] {
      assert a + b == a;
    } else {
      var b' := b[..|b| - 2];
      assert (a + b)[..|a + b| - 2] == a + b';
      assert (a + b)[|a + b| - 2] == b[|b| - 2];
      assert (a + b)[|a + b| - 1] == b[|b| - 1];
      ReassembleAppend(a, b');
    }
  }

  // ---------------------------------------------------------------------
  // What each routine puts on the bus

  /** `setUpTheLCD`'s power-up wait, where the program has one. */
  function StartupWait(ms: nat): seq<Step<byte>>
  {
    if ms == 0 then [] else [Delay(ms)]
  }

  /** `writeToGram`: the CGRAM address instruction, the glyph rows as
      data, then the DDRAM address instruction. */
  function UploadSteps(rows: seq<byte>, ms: nat): seq<Step<byte>>
  {
    ByteSteps(CgramStart, InstructionMode, ms)
      + BytesSteps(rows, DataMode, ms)
      + ByteSteps(DdramStart, InstructionMode, ms)
  }

  /** The port values of the single instructions and of the clear-and-home
      pair, all with RS clear. */
  lemma InstructionNibbles()
    ensures Nibbled([LineTwo], InstructionMode) == [0x0C, 0x00]
    ensures Nibbled([ReturnHomeCode], InstructionMode) == [0x00, 0x02]
    ensures Nibbled([ClearScreen, ReturnHomeCode], InstructionMode) == [0x00, 0x01, 0x00, 0x02]
  {
    var pair := [ClearScreen, ReturnHomeCode];
    NibbledSnoc(pair, 0, InstructionMode);
    NibbledSnoc(pair, 1, InstructionMode);
    assert pair[..0] == [] && pair[..2] == pair;
    assert [LineTwo][..0] == [] && [ReturnHomeCode][..0] == [];
  }

  /** What the controller latches from one 4-bit transfer while it is
      still in 8-bit mode: port bits 3..0 drive DB7..DB4; DB3..DB0 are not
      driven and read whatever nibble `low` they happen to float at. */
  function Latched(v: byte, low: byte): (r: byte)
    requires low < 16
    ensures High(r) == Low(v) && Low(r) == low
  {
    Low(v) * 16 + low
  }

  /** The first three initialisation bytes, the interface-setting part. */
  const InitHead: seq<byte> := [FirstByte, SecondByte, FourBitOp]
  /** The remaining five, the configuration proper. */
  const InitTail: seq<byte> := [TwoLines, IncPosition, CursorNoBlink, ClearScreen, ReturnHomeCode]

  /** With RS clear, a byte goes out as its bare nibbles. */
  lemma InstructionByte(b: byte)
    ensures Nibbled([b], InstructionMode) == [High(b), Low(b)]
  {
    NibbleSplit(b);
    OrIntoBitFour(High(b), InstructionMode);
    OrIntoBitFour(Low(b), InstructionMode);
    assert [b][..0] == [];
  }

  lemma HeadNibbles()
    ensures Nibbled(InitHead, InstructionMode) == [0x03, 0x03, 0x03, 0x03, 0x03, 0x02]
  {
    InstructionByte(FirstByte);
    InstructionByte(FourBitOp);
    NibbledAppend([FirstByte], [SecondByte], InstructionMode);
    NibbledAppend([FirstByte, SecondByte], [FourBitOp], InstructionMode);
    assert InitHead == [FirstByte, SecondByte] + [FourBitOp];
  }

  /** With RS clear, two bytes go out as their four bare nibbles. */
  lemma InstructionPair(a: byte, b: byte)
    ensures Nibbled([a, b], InstructionMode) == [High(a), Low(a), High(b), Low(b)]
  {
    InstructionByte(a);
    InstructionByte(b);
    NibbledAppend([a], [b], InstructionMode);
    assert [a, b] == [a] + [b];
  }

  lemma TailNibbles()
    ensures Nibbled(InitTail, InstructionMode) == [0x02, 0x0C, 0x00, 0x06, 0x00, 0x0C, 0x00, 0x01, 0x00, 0x02]
  {
    var t := InitTail;
    var u, w := [t[0], t[1]], [t[2], t[3]];
    InstructionPair(t[0], t[1]);
    InstructionPair(t[2], t[3]);
    InstructionByte(t[4]);
    NibbledAppend(u, w, InstructionMode);
    NibbledAppend(u + w, [t[4]], InstructionMode);
    assert t == u + w + [t[4]];
  }

  /** The sixteen nibbles of `setUpTheLCD`, all with RS clear. */
  lemma InitNibbles()
    ensures Nibbled(InitTable(), InstructionMode) ==
      [0x03, 0x03, 0x03, 0x03, 0x03, 0x02, 0x02, 0x0C, 0x00, 0x06, 0x00, 0x0C, 0x00, 0x01, 0x00, 0x02]
  {
    HeadNibbles();
    TailNibbles();
    assert InitTable() == InitHead + InitTail;
    NibbledAppend(InitHead, InitTail, InstructionMode);
  }

  /** The start-up stream splits into the nibbles of the first three bytes
      and the nibbles of the other five. */
  lemma InitSplit()
    ensures |Nibbled(InitTable(), InstructionMode)| == 16
    ensures Nibbled(InitTable(), InstructionMode)[..6] == Nibbled(InitHead, InstructionMode)
    ensures Nibbled(InitTable(), InstructionMode)[6..] == Nibbled(InitTail, InstructionMode)
  {
    assert InitTable() == InitHead + InitTail;
    NibbledAppend(InitHead, InitTail, InstructionMode);
    NibbledLength(InitHead, InstructionMode);
    NibbledLength(InitTail, InstructionMode);
  }

  /** The start-up stream begins with the interface-setting part of the
      controller's "initializing by instruction" procedure for the 4-bit
      interface (its minimum waits are not part of this): while the
      controller still reads single transfers as 8-bit instructions it gets
      "function set, 8-bit" (nibble 0x3) five times, then "function set,
      4-bit" (nibble 0x2), whatever the undriven lines DB3..DB0 read. The
      rest of the table is the program's own configuration (see
      `InitConfigures`), not the procedure's display-off, clear, entry-mode
      tail. This lemma reads the stream from power-on; `InitFromAnyState`
      derives the switch to pair reading from every state. */
  lemma InitFollowsProcedure()
    ensures var w := Nibbled(InitTable(), InstructionMode);
      |w| == 16 &&
      (forall i, x: byte :: 0 <= i < 5 && x < 16 ==> SetsInterface(Latched(w[i], x), true)) &&
      (forall x: byte :: x < 16 ==> SetsInterface(Latched(w[5], x), false))
  {
    InitSplit();
    HeadNibbles();
    var w := Nibbled(InitTable(), InstructionMode);
    var h := w[..6];
    assert h == [0x03, 0x03, 0x03, 0x03, 0x03, 0x02];
    forall i, x: byte | 0 <= i < 5 && x < 16
      ensures SetsInterface(Latched(w[i], x), true)
    {
      assert w[i] == h[i] == 0x03;
      InterfaceNibbles(x);
    }
    assert w[5] == h[5] == 0x02;
    forall x: byte | x < 16
      ensures SetsInterface(Latched(w[5], x), false)
    {
      InterfaceNibbles(x);
    }
  }

  /** From the seventh transfer on, the controller is in 4-bit mode (as
      `InitFromAnyState` shows from any starting state) and the transfers
      pair up into the four-bit function set, entry mode, display
      control, clear and home, all as instructions. */
  lemma InitConfigures()
    ensures var w := Nibbled(InitTable(), InstructionMode);
      |w| == 16 && Reassemble(w[6..]) == Tagged(InitTail, false)
  {
    InitSplit();
    RoundTrip(InitTail, InstructionMode);
  }

  // ---------------------------------------------------------------------
  // The controller's interface width, from any state it may be in

  /** The controller's side of the bus: whether it reads each transfer as a
      whole 8-bit instruction, and, in 4-bit mode, the first transfer of a
      pair when one is waiting for its partner. */
  datatype Interface = Interface(eightBit: bool, pending: Option<byte>)

  /** The states the controller can be in: a transfer waits for a partner
      only in 4-bit mode. Power-on is `Interface(true, None)`. */
  predicate Consistent(s: Interface)
  {
    s.eightBit ==> s.pending.None?
  }

  /** The interface width after receiving `r`: a function set (0x20..0x3F)
      sent as an instruction chooses it by its bit 4 (DL); anything else
      leaves `eightBit` as it was. */
  function ModeAfter(eightBit: bool, r: Received): bool
  {
    if !r.isData && 0x20 <= r.code < 0x40 then (r.code / 16) % 2 == 1 else eightBit
  }

  /** `ModeAfter` agrees with the instruction table: the width changes only
      on a function set received as an instruction, to the width it names. */
  lemma ModeAfterDecodes(eightBit: bool, r: Received)
    ensures ModeAfter(eightBit, r) ==
      if !r.isData && Decode(r.code).Some? && Decode(r.code).value.FunctionSet?
      then Decode(r.code).value.eightBit
      else eightBit
  {
    var b := r.code as bv8;
    if 0x20 <= r.code < 0x40 {
      assert !IsSet(b, 7) && !IsSet(b, 6) && IsSet(b, 5);
      assert IsSet(b, 4) <==> (r.code / 16) % 2 == 1;
    } else {
      assert IsSet(b, 7) || IsSet(b, 6) || !IsSet(b, 5);
    }
  }

  /** The controller's state after some transfers, and what it received. */
  datatype Reading = Reading(after: Interface, got: seq<Received>)

  /** One transfer of port value `v` while the undriven DB3..DB0 float at
      the low nibble of `x`, whatever it is: latched
      whole in 8-bit mode, held as the first half of a pair or joined with
      the held half in 4-bit mode. */
  function Feed(s: Interface, v: byte, x: byte): (r: Reading)
    requires Consistent(s)
    ensures Consistent(r.after)
    ensures r.got == [] <==> r.after.pending.Some?
    ensures r.after.pending.Some? ==> !s.eightBit && s.pending.None? && r.after == Interface(false, Some(v))
  {
    if s.eightBit then
      var got := Received(RsBit(v), Latched(v, Low(x)));
      Reading(Interface(ModeAfter(true, got), None), [got])
    else if s.pending.None? then
      Reading(Interface(false, Some(v)), [])
    else
      var got := Join(s.pending.value, v);
      Reading(Interface(ModeAfter(false, got), None), [got])
  }

  /** A run of transfers `ws`, DB3..DB0 floating at the low nibble of
      `xs[i]` during `ws[i]`. */
  function Read(s: Interface, ws: seq<byte>, xs: seq<byte>): (r: Reading)
    requires Consistent(s) && |xs| == |ws|
    ensures Consistent(r.after)
    decreases |ws|
  {
    if ws == [] then Reading(s, [])
    else
      var f := Feed(s, ws[0], xs[0]);
      var rest := Read(f.after, ws[1..], xs[1..]);
      Reading(rest.after, f.got + rest.got)
  }

  /** Each transfer delivers at most one instruction or character. */
  lemma {:induction false} ReadDelivers(s: Interface, ws: seq<byte>, xs: seq<byte>)
    requires Consistent(s) && |xs| == |ws|
    ensures |Read(s, ws, xs).got| <= |ws|
    decreases |ws|
  {
    if ws != [] {
      ReadDelivers(Feed(s, ws[0], xs[0]).after, ws[1..], xs[1..]);
    }
  }

  /** Reading one run after another is reading their concatenation. */
  lemma {:induction false} ReadAppend(s: Interface, a: seq<byte>, b: seq<byte>, xa: seq<byte>, xb: seq<byte>)
    requires Consistent(s) && |xa| == |a| && |xb| == |b|
    ensures var ra := Read(s, a, xa);
      var rb := Read(ra.after, b, xb);
      Read(s, a + b, xa + xb) == Reading(rb.after, ra.got + rb.got)
    decreases |a|
  {
    if a == [] {
      assert a + b == b && xa + xb == xb;
    } else {
      var f := Feed(s, a[0], xa[0]);
      ReadAppend(f.after, a[1..], b, xa[1..], xb);
      assert (a + b)[0] == a[0] && (xa + xb)[0] == xa[0];
      assert (a + b)[1..] == a[1..] + b;
      assert (xa + xb)[1..] == xa[1..] + xb;
      var ra := Read(f.after, a[1..], xa[1..]);
      var rb := Read(ra.after, b, xb);
      var whole := Read(f.after, a[1..] + b, xa[1..] + xb);
      assert whole == Reading(rb.after, ra.got + rb.got);
      assert Read(s, a + b, xa + xb) == Reading(whole.after, f.got + whole.got);
      assert f.got + (ra.got + rb.got) == (f.got + ra.got) + rb.got;
    }
  }

  /** In 4-bit mode on a pair boundary, the two transfers of a byte arrive
      as that byte, and leave the controller where it was unless the byte is
      an instruction choosing the 8-bit interface. */
  lemma PairRead(b: byte, rs: byte, xs: seq<byte>)
    requires IsMode(rs) && |xs| == 2
    requires rs == DataMode || !SetsInterface(b, true)
    ensures Read(Interface(false, None), [Or(High(b), rs), Or(Low(b), rs)], xs) ==
      Reading(Interface(false, None), [Received(rs == DataMode, b)])
  {
    var pair := [Or(High(b), rs), Or(Low(b), rs)];
    JoinNibbles(b, rs);
    var f := Feed(Interface(false, None), pair[0], xs[0]);
    assert f == Reading(Interface(false, Some(pair[0])), []);
    var got := Received(rs == DataMode, b);
    ModeAfterDecodes(false, got);
    var g := Feed(f.after, pair[1], xs[1]);
    assert g == Reading(Interface(false, None), [got]);
    assert pair[1..][1..] == [] && xs[1..][1..] == [];
    assert Read(f.after, pair[1..], xs[1..]) == g;
  }

  /** In 4-bit mode on a pair boundary, whole bytes none of which is an
      instruction choosing the 8-bit interface arrive exactly, with their
      RS level, and leave the controller where it was. */
  lemma {:induction false} FourBitReads(bs: seq<byte>, rs: byte, xs: seq<byte>)
    requires IsMode(rs) && |xs| == |Nibbled(bs, rs)|
    requires forall i :: 0 <= i < |bs| ==> rs == DataMode || !SetsInterface(bs[i], true)
    ensures Read(Interface(false, None), Nibbled(bs, rs), xs) ==
      Reading(Interface(false, None), Tagged(bs, rs == DataMode))
    decreases |bs|
  {
    if bs != [] {
      var init := bs[..|bs| - 1];
      var last := bs[|bs| - 1];
      NibbledLength(init, rs);
      var n := |xs| - 2;
      FourBitReads(init, rs, xs[..n]);
      assert xs[..n] + xs[n..] == xs;
      ReadAppend(Interface(false, None), Nibbled(init, rs), [Or(High(last), rs), Or(Low(last), rs)], xs[..n], xs[n..]);
      PairRead(last, rs, xs[n..]);
    }
  }

  /** In 8-bit mode a transfer 0x3 is latched as "function set, 8-bit"
      and a transfer 0x2 as "function set, 4-bit", whatever DB3..DB0 read. */
  lemma LatchInterface(x: byte)
    ensures Feed(Interface(true, None), 0x03, x).after == Interface(true, None)
    ensures Feed(Interface(true, None), 0x02, x).after == Interface(false, None)
  {
    assert Latched(0x03, Low(x)) == 0x30 + Low(x);
    assert Latched(0x02, Low(x)) == 0x20 + Low(x);
  }

  /** In 8-bit mode, transfers 0x3 keep the controller there and a final
      0x2 puts it in 4-bit mode, whatever DB3..DB0 read. */
  lemma {:induction false} EightBitHead(ws: seq<byte>, xs: seq<byte>)
    requires |ws| >= 1 && |xs| == |ws|
    requires forall i :: 0 <= i < |ws| - 1 ==> ws[i] == 0x03
    requires ws[|ws| - 1] == 0x02
    ensures Read(Interface(true, None), ws, xs).after == Interface(false, None)
    decreases |ws|
  {
    LatchInterface(xs[0]);
    if |ws| > 1 {
      EightBitHead(ws[1..], xs[1..]);
    }
  }

  /** In 4-bit mode on a pair boundary, two transfers 0x3 join into 0x33,
      "function set, 8-bit", after which the rest behaves as in 8-bit mode. */
  lemma FourBitHead(ws: seq<byte>, xs: seq<byte>)
    requires |ws| >= 3 && |xs| == |ws|
    requires forall i :: 0 <= i < |ws| - 1 ==> ws[i] == 0x03
    requires ws[|ws| - 1] == 0x02
    ensures Read(Interface(false, None), ws, xs).after == Interface(false, None)
  {
    var f1 := Feed(Interface(false, None), ws[0], xs[0]);
    assert f1.after == Interface(false, Some(0x03));
    var f2 := Feed(f1.after, ws[1], xs[1]);
    assert Join(0x03, 0x03) == Received(false, 0x33);
    assert f2.after == Interface(true, None);
    EightBitHead(ws[2..], xs[2..]);
    assert ws[1..][1..] == ws[2..] && xs[1..][1..] == xs[2..];
  }

  /** Whatever state the controller is in, the six transfers of the first
      three table bytes leave it in 4-bit mode on a pair boundary: from 8-bit
      mode by the latched nibbles; from 4-bit mode with or without a waiting
      transfer, by completing that pair and then joining 0x3, 0x3 into
      "function set, 8-bit". */
  lemma InitHeadForcesFourBit(s: Interface, xs: seq<byte>)
    requires Consistent(s) && |xs| == |Nibbled(InitHead, InstructionMode)|
    ensures Read(s, Nibbled(InitHead, InstructionMode), xs).after == Interface(false, None)
  {
    HeadNibbles();
    var ws := Nibbled(InitHead, InstructionMode);
    if s.eightBit {
      EightBitHead(ws, xs);
    } else if s.pending.None? {
      FourBitHead(ws, xs);
    } else {
      var f := Feed(s, ws[0], xs[0]);
      if f.after.eightBit {
        EightBitHead(ws[1..], xs[1..]);
      } else {
        FourBitHead(ws[1..], xs[1..]);
      }
    }
  }

  /** Whatever state the controller is in when `setUpTheLCD` starts, its
      sixteen transfers leave it in 4-bit mode on a pair boundary, and the
      last ten arrive as the five configuration bytes, as instructions. */
  lemma InitFromAnyState(s: Interface, xs: seq<byte>)
    requires Consistent(s) && |xs| == |Nibbled(InitTable(), InstructionMode)|
    ensures var r := Read(s, Nibbled(InitTable(), InstructionMode), xs);
      r.after == Interface(false, None) && |r.got| >= 5 &&
      r.got[|r.got| - 5..] == Tagged(InitTail, false)
  {
    InitSplit();
    var w := Nibbled(InitTable(), InstructionMode);
    assert w == w[..6] + w[6..];
    assert xs == xs[..6] + xs[6..];
    InitHeadForcesFourBit(s, xs[..6]);
    DefinedInstructions();
    FourBitReads(InitTail, InstructionMode, xs[6..]);
    ReadAppend(s, w[..6], w[6..], xs[..6], xs[6..]);
  }

  /** The upload writes the CGRAM address 0x40 as two instruction
      nibbles, every row as two nibbles with RS set, and the DDRAM address
      0x80 as two instruction nibbles. */
  lemma UploadWrites(rows: seq<byte>, ms: nat)
    ensures Writes(UploadSteps(rows, ms)) == [0x04, 0x00] + Nibbled(rows, DataMode) + [0x08, 0x00]
  {
    var a := ByteSteps(CgramStart, InstructionMode, ms);
    var b := BytesSteps(rows, DataMode, ms);
    var c := ByteSteps(DdramStart, InstructionMode, ms);
    WritesAppend(a + b, c);
    WritesAppend(a, b);
    ByteWrites(CgramStart, InstructionMode, ms);
    ByteWrites(DdramStart, InstructionMode, ms);
    BytesWrites(rows, DataMode, ms);
  }

  /** Of the `2 * |rows| + 4` port values of the upload, exactly the first
      two and the last two have RS clear. */
  lemma UploadRsLine(rows: seq<byte>, ms: nat)
    ensures var w := Writes(UploadSteps(rows, ms));
      |w| == 2 * |rows| + 4 &&
      forall i :: 0 <= i < |w| ==> (RsBit(w[i]) <==> 2 <= i < |w| - 2)
  {
    UploadWrites(rows, ms);
    var w := Writes(UploadSteps(rows, ms));
    var mid := Nibbled(rows, DataMode);
    NibbledLength(rows, DataMode);
    NibbledCarriesMode(rows, DataMode);
    forall i | 0 <= i < |w|
      ensures RsBit(w[i]) <==> 2 <= i < |w| - 2
    {
      if 2 <= i < |w| - 2 {
        assert w[i] == mid[i - 2];
        assert w[i] in mid;
      }
    }
  }

  lemma ReassemblePair(p: seq<byte>)
    requires |p| == 2
    ensures Reassemble(p) == [Join(p[0], p[1])]
  {
    assert p[..|p| - 2] == [];
  }

  lemma EvenDouble(k: nat)
    ensures (2 * k) % 2 == 0
  {
  }

  lemma EvenPlusTwo(n: nat)
    requires n % 2 == 0
    ensures (n + 2) % 2 == 0
  {
  }

  /** The controller's reading of a run framed by one pair in front and
      one pair behind. */
  lemma ReassembleFramed(p: seq<byte>, mid: seq<byte>, q: seq<byte>)
    requires |p| == 2 && |q| == 2 && |mid| % 2 == 0
    ensures Reassemble(p + mid + q) == [Join(p[0], p[1])] + Reassemble(mid) + [Join(q[0], q[1])]
  {
    var pm := p + mid;
    EvenPlusTwo(|mid|);
    assert |pm| == |mid| + 2;
    ReassembleAppend(pm, q);
    ReassembleAppend(p, mid);
    ReassemblePair(p);
    ReassemblePair(q);
    assert Reassemble(pm) == [Join(p[0], p[1])] + Reassemble(mid);
  }

  /** The controller receives the CGRAM address, the rows in order as data,
      and the DDRAM address. */
  lemma UploadReceived(rows: seq<byte>, ms: nat)
    ensures Reassemble(Writes(UploadSteps(rows, ms))) ==
      [Received(false, CgramStart)] + Tagged(rows, true) + [Received(false, DdramStart)]
  {
    UploadWrites(rows, ms);
    NibbledLength(rows, DataMode);
    EvenDouble(|rows|);
    RoundTrip(rows, DataMode);
    ReassembleFramed([0x04, 0x00], Nibbled(rows, DataMode), [0x08, 0x00]);
    assert Join(0x04, 0x00) == Received(false, CgramStart);
    assert Join(0x08, 0x00) == Received(false, DdramStart);
  }

  // ---------------------------------------------------------------------
  // The driver

  class Driver {
    /** The `__delay_ms` after every transfer. */
    const writeMs: nat
    /** The `__delay_ms` at the start of `setUpTheLCD`; 0 when it has none. */
    const startupMs: nat

    /** `lcdInfo` / `lcdData`: the byte to send, then the last port value. */
    var info: byte
    /** `lcdTempInfo` / `lcdTempData`: the copy whose nibbles are swapped. */
    var temp: byte
    /** `rsOr` / `rsLine`: the RS mask OR'd into every port value. */
    var rsOr: byte
    /** `n`: the index of the table loops (never above 8, so the
        `unsigned char` does not wrap). */
    var n: nat
    /** Every transfer and delay, in order. */
    var trace: seq<Step<byte>>

    /** The RS mask is always one of the two modes. */
    ghost predicate Valid()
      reads this
    {
      IsMode(rsOr)
    }

    /** The zero-initialised globals before the first call. */
    ghost predicate PowerOn()
      reads this
    {
      info == 0 && temp == 0 && rsOr == 0 && n == 0 && trace == []
    }

    constructor ForLcdProgramming()
      ensures writeMs == 2 && startupMs == 32
      ensures Valid() && PowerOn()
    {
      writeMs, startupMs := 2, 32;
      info, temp, rsOr, n, trace := 0, 0, 0, 0, [];
    }

    constructor ForVoltMeter()
      ensures writeMs == 3 && startupMs == 32
      ensures Valid() && PowerOn()
    {
      writeMs, startupMs := 3, 32;
      info, temp, rsOr, n, trace := 0, 0, 0, 0, [];
    }

    constructor ForSpecialCharacters()
      ensures writeMs == 3 && startupMs == 0
      ensures Valid() && PowerOn()
    {
      writeMs, startupMs := 3, 0;
      info, temp, rsOr, n, trace := 0, 0, 0, 0, [];
    }

    /** `sendInfo` / `sendData`: swap the nibbles of the copy, put its low
        nibble (the copy's former high nibble) with the RS mask on the port,
        strobe E and wait. */
    method SendNibble()
      requires Valid()
      modifies this
      ensures Valid()
      ensures temp == Swap(old(temp))
      ensures info == Or(High(old(temp)), rsOr)
      ensures trace == old(trace) + [Strobe(info, writeMs)]
      ensures rsOr == old(rsOr) && n == old(n)
    {
      temp := Swap(temp);
      info := Low(temp);
      info := Or(info, rsOr);
      LowOfSwap(old(temp));
      trace := trace + [Strobe(info, writeMs)];
    }

    /** `lcdOut`: send `info` as two transfers, high nibble first. The
        copy ends up equal to the byte sent, `info` holds the last port
        value. */
    method LcdOut()
      requires Valid()
      modifies this
      ensures Valid()
      ensures trace == old(trace) + ByteSteps(old(info), rsOr, writeMs)
      ensures temp == old(info)
      ensures info == Or(Low(old(info)), rsOr)
      ensures rsOr == old(rsOr) && n == old(n)
    {
      ghost var b := info;
      temp := info;
      SendNibble();
      SendNibble();
      SwapInvolution(b);
      ByteStepsOfSwap(old(trace), b, rsOr, writeMs);
    }

    /** The body of the driver's byte loops, `lcdInfo = bs[k]; lcdOut();`:
        the run of bytes sent since `t0` grows by `bs[k]`. */
    method SendEntry(bs: seq<byte>, k: nat, ghost t0: seq<Step<byte>>)
      requires Valid() && k < |bs|
      requires trace == t0 + BytesSteps(bs[..k], rsOr, writeMs)
      modifies this
      ensures Valid() && rsOr == old(rsOr) && n == old(n)
      ensures trace == t0 + BytesSteps(bs[..k + 1], rsOr, writeMs)
      ensures temp == bs[k] && info == Or(Low(bs[k]), rsOr)
    {
      info := bs[k];
      LcdOut();
      BytesStepsSnoc(bs, k, rsOr, writeMs);
      AppendAssoc(t0, BytesSteps(bs[..k], rsOr, writeMs), ByteSteps(bs[k], rsOr, writeMs));
    }

    /** One of the `n = 0; while (n < 8)` loops: send the eight bytes of
        `table` in index order with the current RS mask. */
    method SendTable(table: seq<byte>)
      requires Valid() && |table| == 8
      modifies this
      ensures Valid()
      ensures trace == old(trace) + BytesSteps(table, rsOr, writeMs)
      ensures n == 8 && rsOr == old(rsOr)
      ensures temp == table[7] && info == Or(Low(table[7]), rsOr)
    {
      n := 0;
      while n < 8
        invariant n <= 8
        invariant Valid() && rsOr == old(rsOr)
        invariant trace == old(trace) + BytesSteps(table[..n], rsOr, writeMs)
        invariant n > 0 ==> temp == table[n - 1] && info == Or(Low(table[n - 1]), rsOr)
      {
        SendEntry(table, n, old(trace));
        n := n + 1;
      }
      assert table[..8] == table;
    }

    /** `setUpTheLCD`: wait for power-up (where the program does), send the
        initialisation table as instructions, and leave data mode on. */
    method SetUp()
      requires Valid()
      modifies this
      ensures Valid()
      ensures trace == old(trace) + StartupWait(startupMs) + BytesSteps(InitTable(), InstructionMode, writeMs)
      ensures rsOr == DataMode && n == 8
      ensures temp == ReturnHomeCode && info == 0x02
    {
      if startupMs > 0 {
        trace := trace + [Delay(startupMs)];
      }
      rsOr := InstructionMode;
      SendTable(InitTable());
      rsOr := DataMode;
    }

    /** `line2`: the DDRAM address of line 2 (0xC0) as an instruction. */
    method Line2()
      requires Valid()
      modifies this
      ensures Valid()
      ensures trace == old(trace) + BytesSteps([LineTwo], InstructionMode, writeMs)
      ensures rsOr == DataMode && n == old(n)
      ensures temp == LineTwo && info == 0x00
    {
      rsOr := InstructionMode;
      info := LineTwo;
      LcdOut();
      rsOr := DataMode;
      BytesStepsSnoc([LineTwo], 0, InstructionMode, writeMs);
      assert [LineTwo][..0] == [];
    }

    /** `cleartheScreen` / `clearTheScreen`: clear display, then return
        home, both as instructions. */
    method ClearTheScreen()
      requires Valid()
      modifies this
      ensures Valid()
      ensures trace == old(trace) + BytesSteps([ClearScreen, ReturnHomeCode], InstructionMode, writeMs)
      ensures rsOr == DataMode && n == old(n)
      ensures temp == ReturnHomeCode && info == 0x02
    {
      var pair := [ClearScreen, ReturnHomeCode];
      rsOr := InstructionMode;
      SendEntry(pair, 0, old(trace));
      SendEntry(pair, 1, old(trace));
      rsOr := DataMode;
      assert pair[..2] == pair;
    }

    /** `gohome` (volt meter only): return home as an instruction. */
    method GoHome()
      requires Valid()
      modifies this
      ensures Valid()
      ensures trace == old(trace) + BytesSteps([ReturnHomeCode], InstructionMode, writeMs)
      ensures rsOr == DataMode && n == old(n)
      ensures temp == ReturnHomeCode && info == 0x02
    {
      rsOr := InstructionMode;
      info := ReturnHomeCode;
      LcdOut();
      rsOr := DataMode;
      BytesStepsSnoc([ReturnHomeCode], 0, InstructionMode, writeMs);
      assert [ReturnHomeCode][..0] == [];
    }

    /** `writeString`: send every character in front of the terminating
        NUL, in order, with the RS mask as it stands. */
    method WriteString(words: seq<byte>)
      requires Valid() && Terminated(words)
      modifies this
      ensures Valid()
      ensures trace == old(trace) + BytesSteps(Text(words), rsOr, writeMs)
      ensures rsOr == old(rsOr) && n == old(n)
      ensures Text(words) == [] ==> temp == old(temp) && info == old(info)
      ensures Text(words) != [] ==>
        var last := Text(words)[|Text(words)| - 1];
        temp == last && info == Or(Low(last), rsOr)
    {
      var i := 0;
      while words[i] != 0
        invariant i <= Length(words)
        invariant Valid() && rsOr == old(rsOr) && n == old(n)
        invariant trace == old(trace) + BytesSteps(words[..i], rsOr, writeMs)
        invariant i == 0 ==> temp == old(temp) && info == old(info)
        invariant i > 0 ==> temp == words[i - 1] && info == Or(Low(words[i - 1]), rsOr)
        decreases Length(words) - i
      {
        SendEntry(words, i, old(trace));
        i := i + 1;
      }
    }

    /** The four table loops of `writeToGram`: each glyph's eight rows, the
        glyphs in order, with the RS mask as it stands. */
    method SendGlyphs(g0: seq<byte>, g1: seq<byte>, g2: seq<byte>, g3: seq<byte>)
      requires Valid() && |g0| == |g1| == |g2| == |g3| == 8
      modifies this
      ensures Valid()
      ensures trace == old(trace) + BytesSteps(g0 + g1 + g2 + g3, rsOr, writeMs)
      ensures n == 8 && rsOr == old(rsOr)
      ensures temp == g3[7] && info == Or(Low(g3[7]), rsOr)
    {
      ghost var rs := rsOr;
      SendTable(g0);
      SendTable(g1);
      BytesStepsAppend(g0, g1, rs, writeMs);
      AppendAssoc(old(trace), BytesSteps(g0, rs, writeMs), BytesSteps(g1, rs, writeMs));
      SendTable(g2);
      BytesStepsAppend(g0 + g1, g2, rs, writeMs);
      AppendAssoc(old(trace), BytesSteps(g0 + g1, rs, writeMs), BytesSteps(g2, rs, writeMs));
      SendTable(g3);
      BytesStepsAppend(g0 + g1 + g2, g3, rs, writeMs);
      AppendAssoc(old(trace), BytesSteps(g0 + g1 + g2, rs, writeMs), BytesSteps(g3, rs, writeMs));
    }

    /** `writeToGram` (special characters only): load the four glyphs into
        CGRAM slots 0 to 3 and return to DDRAM addressing. */
    method WriteToGram()
      requires Valid()
      modifies this
      ensures Valid()
      ensures trace == old(trace) + UploadSteps(Glyphs.AllRows(), writeMs)
      ensures rsOr == DataMode && n == 8
      ensures temp == DdramStart && info == 0x00
    {
      rsOr := InstructionMode;
      info := CgramStart;
      LcdOut();
      ghost var a := ByteSteps(CgramStart, InstructionMode, writeMs);
      rsOr := DataMode;
      SendGlyphs(Glyphs.FirstCharacter, Glyphs.SecondCharacter, Glyphs.ThirdCharacter, Glyphs.FourthCharacter);
      ghost var b := BytesSteps(Glyphs.AllRows(), DataMode, writeMs);
      rsOr := InstructionMode;
      info := DdramStart;
      LcdOut();
      rsOr := DataMode;
      AppendAssoc(old(trace), a, b);
      AppendAssoc(old(trace), a + b, ByteSteps(DdramStart, InstructionMode, writeMs));
    }
  }
}

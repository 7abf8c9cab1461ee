/** The HD44780 driver in 8-bit bus mode. PORTB carries a whole byte to the
    controller's DB7..DB0; E and RS are the separate pins RA0 and RA1, so a
    transfer is one port write made while RS holds its level. */
module Lcd8Bit {
  import opened Bus
  import opened Seqs
  import opened Bytes
  import opened CString
  import opened Hd44780

  /** One port write together with the level of RS at that moment. */
  datatype Frame = Frame(data: byte, rs: bool)

  /** The `__delay_ms` after every transfer. */
  const WriteMs: nat := 2
  /** The `__delay_ms` at the start of `setUpTheLCD`. */
  const StartupMs: nat := 33

  /** The seven-entry `lcdInitialize` table, sent in index order; each
      entry is a defined instruction. */
  function InitTable(): (t: seq<byte>)
    ensures |t| == 7
    ensures forall i :: 0 <= i < |t| ==> Decode(t[i]).Some?
  {
    [FirstByte, SecondByte, Lines2Bits8, IncPosition, DoBlink, ClearScreen, ReturnHomeCode]
  }

  /** The transfers of `bs`, in order: one per byte, each with RS at `rs`. */
  function FrameSteps(bs: seq<byte>, rs: bool): seq<Step<Frame>>
    decreases |bs|
  {
    if bs == [] then []
    else FrameSteps(bs[..|bs| - 1], rs) + [Strobe(Frame(bs[|bs| - 1], rs), WriteMs)]
  }

  lemma FrameStepsSnoc(bs: seq<byte>, i: nat, rs: bool)
    requires i < |bs|
    ensures FrameSteps(bs[..i + 1], rs) == FrameSteps(bs[..i], rs) + [Strobe(Frame(bs[i], rs), WriteMs)]
  {
    assert bs[..i + 1][..i] == bs[..i];
  }

  /** What the controller receives from a run of 8-bit transfers: every
      transfer is a whole code, read with the RS level it was written with. */
  function Receive(fs: seq<Frame>): seq<Received>
    decreases |fs|
  {
    if fs == [] then []
    else Receive(fs[..|fs| - 1]) + [Received(fs[|fs| - 1].rs, fs[|fs| - 1].data)]
  }

  /** The port is written every byte of `bs`, unchanged and in order, one
      write per byte, with RS at `rs` throughout. */
  lemma {:induction false} FramesWrites(bs: seq<byte>, rs: bool)
    ensures |Writes(FrameSteps(bs, rs))| == |bs|
    ensures forall i :: 0 <= i < |bs| ==> Writes(FrameSteps(bs, rs))[i] == Frame(bs[i], rs)
    decreases |bs|
  {
    if bs != [] {
      var init := bs[..|bs| - 1];
      var s := Strobe(Frame(bs[|bs| - 1], rs), WriteMs);
      FramesWrites(init, rs);
      WritesAppend(FrameSteps(init, rs), [s]);
      WritesSingle(s);
    }
  }

  /** The controller receives exactly the bytes sent, in order, each with
      the RS level that was set. */
  lemma {:induction false} FramesReceived(bs: seq<byte>, rs: bool)
    ensures Receive(Writes(FrameSteps(bs, rs))) == Tagged(bs, rs)
    decreases |bs|
  {
    if bs != [] {
      var init := bs[..|bs| - 1];
      var s := Strobe(Frame(bs[|bs| - 1], rs), WriteMs);
      FramesReceived(init, rs);
      WritesAppend(FrameSteps(init, rs), [s]);
      WritesSingle(s);
      var fs := Writes(FrameSteps(bs, rs));
      assert fs[..|fs| - 1] == Writes(FrameSteps(init, rs));
    }
  }

  lemma {:induction false} FramesStrobes(bs: seq<byte>, rs: bool)
    ensures Strobes(FrameSteps(bs, rs), WriteMs) && |FrameSteps(bs, rs)| == |bs|
    decreases |bs|
  {
    if bs != [] {
      FramesStrobes(bs[..|bs| - 1], rs);
    }
  }

  /** Every write is followed by one E pulse and the 2 ms delay. */
  lemma FramesTiming(bs: seq<byte>, rs: bool)
    ensures Framed(Pins(FrameSteps(bs, rs)), WriteMs)
    ensures |Pins(FrameSteps(bs, rs))| == 4 * |bs|
    ensures Elapsed(FrameSteps(bs, rs)) == WriteMs * |bs|
  {
    FramesStrobes(bs, rs);
    StrobesFramed(FrameSteps(bs, rs), WriteMs);
  }

  /** The table begins with the interface-setting part of the controller's
      "initializing by instruction" procedure for the 8-bit interface (its
      minimum waits are not part of this): function sets with the 8-bit
      interface bit, here three of them, the last also choosing two lines
      and the 5x10 font. The rest is the program's own configuration rather
      than the procedure's display-off, clear, entry-mode tail: entry mode
      (increment), display control (display, cursor and blink on), clear
      and home. */
  lemma InitProcedure()
    ensures |InitTable()| == 7
    ensures Decode(InitTable()[0]) == Some(FunctionSet(true, false, false))
    ensures Decode(InitTable()[1]) == Some(FunctionSet(true, false, false))
    ensures Decode(InitTable()[2]) == Some(FunctionSet(true, true, true))
    ensures Decode(InitTable()[3]) == Some(EntryModeSet(true, false))
    ensures Decode(InitTable()[4]) == Some(DisplayControl(true, true, true))
    ensures Decode(InitTable()[5]) == Some(ClearDisplay)
    ensures Decode(InitTable()[6]) == Some(ReturnHome)
  {
    DefinedInstructions();
  }

  class Driver {
    /** `lcdInfo`: the byte to put on the port. */
    var info: byte
    /** The level of `RSpin` (RA1): high for data, low for instructions. */
    var rs: bool
    /** `n`: the index of the table loop (never above 7, so the `unsigned
        char` does not wrap). */
    var n: nat
    /** Every transfer and delay, in order. */
    var trace: seq<Step<Frame>>

    /** The zero-initialised globals and the cleared PORTA of `main`. */
    constructor ()
      ensures info == 0 && !rs && n == 0 && trace == []
    {
      info, rs, n, trace := 0, false, 0, [];
    }

    /** `lcdOut`: put `lcdInfo` on the port as it is, pulse E, wait 2 ms. */
    method LcdOut()
      modifies this
      ensures trace == old(trace) + [Strobe(Frame(info, rs), WriteMs)]
      ensures info == old(info) && rs == old(rs) && n == old(n)
    {
      trace := trace + [Strobe(Frame(info, rs), WriteMs)];
    }

    /** The body of the byte loops, `lcdInfo = bs[k]; lcdOut();`: the run of
        bytes sent since `t0` grows by `bs[k]`. */
    method SendEntry(bs: seq<byte>, k: nat, ghost t0: seq<Step<Frame>>)
      requires k < |bs|
      requires trace == t0 + FrameSteps(bs[..k], rs)
      modifies this
      ensures trace == t0 + FrameSteps(bs[..k + 1], rs)
      ensures info == bs[k] && rs == old(rs) && n == old(n)
    {
      info := bs[k];
      LcdOut();
      FrameStepsSnoc(bs, k, rs);
      AppendAssoc(t0, FrameSteps(bs[..k], rs), [Strobe(Frame(bs[k], rs), WriteMs)]);
    }

    /** `setUpTheLCD`: wait 33 ms, send the table with RS low, then raise
        RS for the data that follows. */
    method SetUp()
      modifies this
      ensures trace == old(trace) + [Delay(StartupMs)] + FrameSteps(InitTable(), false)
      ensures rs && n == 7 && info == ReturnHomeCode
    {
      trace := trace + [Delay(StartupMs)];
      rs := false;
      n := 0;
      while n < 7
        invariant n <= 7 && !rs
        invariant trace == old(trace) + [Delay(StartupMs)] + FrameSteps(InitTable()[..n], false)
        invariant n > 0 ==> info == InitTable()[n - 1]
      {
        SendEntry(InitTable(), n, old(trace) + [Delay(StartupMs)]);
        n := n + 1;
      }
      assert InitTable()[..7] == InitTable();
      rs := true;
    }

    /** `line2`: the DDRAM address of line 2 (0xC0) as an instruction. */
    method Line2()
      modifies this
      ensures trace == old(trace) + FrameSteps([LineTwo], false)
      ensures rs && n == old(n) && info == LineTwo
    {
      rs := false;
      info := LineTwo;
      LcdOut();
      rs := true;
      assert [LineTwo][..0] == [];
    }

    /** `writeString`: send every character in front of the terminating
        NUL, in order, with RS as it stands. */
    method WriteString(words: seq<byte>)
      requires Terminated(words)
      modifies this
      ensures trace == old(trace) + FrameSteps(Text(words), rs)
      ensures rs == old(rs) && n == old(n)
      ensures Text(words) == [] ==> info == old(info)
      ensures Text(words) != [] ==> info == Text(words)[|Text(words)| - 1]
    {
      var i := 0;
      while words[i] != 0
        invariant i <= Length(words)
        invariant rs == old(rs) && n == old(n)
        invariant trace == old(trace) + FrameSteps(words[..i], rs)
        invariant i == 0 ==> info == old(info)
        invariant i > 0 ==> info == words[i - 1]
        decreases Length(words) - i
      {
        SendEntry(words, i, old(trace));
        i := i + 1;
      }
    }

    /** `clearTheScreen`: clear display, then return home, both as
        instructions; RS is raised afterwards. */
    method ClearTheScreen()
      modifies this
      ensures trace == old(trace) + FrameSteps([ClearScreen, ReturnHomeCode], false)
      ensures rs && n == old(n) && info == ReturnHomeCode
    {
      var pair := [ClearScreen, ReturnHomeCode];
      rs := false;
      assert pair[..0] == [];
      SendEntry(pair, 0, old(trace));
      SendEntry(pair, 1, old(trace));
      assert pair[..2] == pair;
      rs := true;
    }
  }

  /** What `line2` and `clearTheScreen` deliver: the line-2 DDRAM address,
      and clear display followed by return home, all read as instructions. */
  lemma InstructionFrames()
    ensures Receive(Writes(FrameSteps([LineTwo], false))) == [Received(false, LineTwo)]
    ensures Decode(LineTwo) == Some(SetDdramAddress(0x40))
    ensures Receive(Writes(FrameSteps([ClearScreen, ReturnHomeCode], false))) ==
      [Received(false, ClearScreen), Received(false, ReturnHomeCode)]
    ensures Decode(ClearScreen) == Some(ClearDisplay) && Decode(ReturnHomeCode) == Some(ReturnHome)
  {
    FramesReceived([LineTwo], false);
    FramesReceived([ClearScreen, ReturnHomeCode], false);
    DefinedInstructions();
    var pair := [ClearScreen, ReturnHomeCode];
    assert [LineTwo][..0] == [] && pair[..1] == [ClearScreen] && [ClearScreen][..0] == [];
  }
}

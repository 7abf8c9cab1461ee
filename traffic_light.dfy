/** The traffic-light sequencer: three lamps on PORTB bits RB0 (red), RB1
    (amber) and RB2 (green), switched one bit field at a time by a loop
    that runs forever. */
module TrafficLight {
  import opened Bytes
  import opened Seqs

  /** The bit numbers of the lamps on PORTB. */
  const RedBit: nat := 0
  const AmberBit: nat := 1
  const GreenBit: nat := 2

  /** What the loop does, in order: a write of one lamp bit (`port` is the
      port value afterwards) or a `__delay_ms(ms)`. */
  datatype Event = Write(port: byte) | Hold(ms: nat)

  datatype Lamps = Lamps(red: bool, amber: bool, green: bool)

  const Off := Lamps(false, false, false)
  const Red := Lamps(true, false, false)
  const RedAmber := Lamps(true, true, false)
  const Green := Lamps(false, false, true)
  const Amber := Lamps(false, true, false)

  /** The lamps a port value lights. */
  function LampsOf(p: byte): Lamps
  {
    Lamps(BitOf(p, RedBit), BitOf(p, AmberBit), BitOf(p, GreenBit))
  }

  /** Bits 7..3 of the two port values agree. */
  predicate SameUpper(p: byte, q: byte)
  {
    forall j: nat :: 3 <= j < 8 ==> (BitOf(p, j) <==> BitOf(q, j))
  }

  function WaitOf(e: Event): nat
  {
    if e.Hold? then e.ms else 0
  }

  /** The milliseconds spent waiting. */
  function TotalWait(es: seq<Event>): nat
  {
    if es == [] then 0 else WaitOf(es[0]) + TotalWait(es[1..])
  }

  lemma {:induction false} TotalWaitAppend(a: seq<Event>, b: seq<Event>)
    ensures TotalWait(a + b) == TotalWait(a) + TotalWait(b)
  {
    if a == [] {
      assert a + b == b;
    } else {
      assert (a + b)[0] == a[0];
      assert (a + b)[1..] == a[1..] + b;
      TotalWaitAppend(a[1..], b);
    }
  }

  /** The total of four events, one at a time. */
  lemma TotalWaitOf(es: seq<Event>)
    requires |es| == 4
    ensures TotalWait(es) == WaitOf(es[0]) + WaitOf(es[1]) + WaitOf(es[2]) + WaitOf(es[3])
  {
    var e1 := es[1..];
    var e2 := e1[1..];
    var e3 := e2[1..];
    assert e3[1..] == [] && e3[0] == es[3] && e2[0] == es[2] && e1[0] == es[1];
    assert TotalWait(e3) == WaitOf(es[3]);
    assert TotalWait(e2) == WaitOf(es[2]) + TotalWait(e3);
    assert TotalWait(e1) == WaitOf(es[1]) + TotalWait(e2);
  }

  /** No port value of `es` lights red and green together. */
  predicate Safe(es: seq<Event>)
  {
    forall i :: 0 <= i < |es| && es[i].Write? ==> !(LampsOf(es[i].port).red && LampsOf(es[i].port).green)
  }

  lemma SafeAppend(a: seq<Event>, b: seq<Event>)
    requires Safe(a) && Safe(b)
    ensures Safe(a + b)
  {
    forall i | 0 <= i < |a + b| && (a + b)[i].Write?
      ensures !(LampsOf((a + b)[i].port).red && LampsOf((a + b)[i].port).green)
    {
      if i >= |a| {
        assert (a + b)[i] == b[i - |a|];
      }
    }
  }

  /** The port values after each of the eight lamp writes of one pass of
      the loop body, starting from port value `p0`. */
  function PassPorts(p0: byte): (ps: seq<byte>)
    ensures |ps| == 8
  {
    var p1 := WriteBit(p0, RedBit, true);
    var p2 := WriteBit(p1, AmberBit, true);
    var p3 := WriteBit(p2, RedBit, false);
    var p4 := WriteBit(p3, AmberBit, false);
    var p5 := WriteBit(p4, GreenBit, true);
    var p6 := WriteBit(p5, GreenBit, false);
    var p7 := WriteBit(p6, AmberBit, true);
    var p8 := WriteBit(p7, AmberBit, false);
    [p1, p2, p3, p4, p5, p6, p7, p8]
  }

  /** The writes of `ps` interleaved with the four delays of the loop body. */
  function Pass(ps: seq<byte>): seq<Event>
    requires |ps| == 8
  {
    [Write(ps[0]), Hold(5000), Write(ps[1]), Hold(2000), Write(ps[2]), Write(ps[3]), Write(ps[4]), Hold(5000),
     Write(ps[5]), Write(ps[6]), Hold(2000), Write(ps[7])]
  }

  /** The pass, written out one event at a time. */
  lemma PassSteps(t: seq<Event>, ps: seq<byte>)
    requires |ps| == 8
    ensures t + [Write(ps[0])] + [Hold(5000)] + [Write(ps[1])] + [Hold(2000)] + [Write(ps[2])]
      + [Write(ps[3])] + [Write(ps[4])] + [Hold(5000)] + [Write(ps[5])] + [Write(ps[6])]
      + [Hold(2000)] + [Write(ps[7])] == t + Pass(ps)
  {
  }

  /** One pass of the loop body from port value `p0`: each lamp write and
      each delay, in program order. */
  function CycleEvents(p0: byte): seq<Event>
  {
    Pass(PassPorts(p0))
  }

  /** A lamp write changes that lamp only, and no bit above the lamps. */
  lemma WriteLamp(x: byte, k: nat, v: bool)
    requires k < 3
    ensures LampsOf(WriteBit(x, k, v)) ==
      Lamps(if k == RedBit then v else LampsOf(x).red,
            if k == AmberBit then v else LampsOf(x).amber,
            if k == GreenBit then v else LampsOf(x).green)
    ensures SameUpper(WriteBit(x, k, v), x)
  {
    WriteBitBits(x, k, v);
  }

  /** The lamps after each of the eight writes of a pass, whatever the
      lamps were before it, and bits 7..3 kept throughout. */
  lemma PassLamps(p0: byte)
    ensures var ps := PassPorts(p0); var l := LampsOf(p0);
      LampsOf(ps[0]) == Lamps(true, l.amber, l.green) &&
      LampsOf(ps[1]) == Lamps(true, true, l.green) &&
      LampsOf(ps[2]) == Lamps(false, true, l.green) &&
      LampsOf(ps[3]) == Lamps(false, false, l.green) &&
      LampsOf(ps[4]) == Lamps(false, false, true) &&
      LampsOf(ps[5]) == Off &&
      LampsOf(ps[6]) == Amber &&
      LampsOf(ps[7]) == Off &&
      forall i :: 0 <= i < 8 ==> SameUpper(ps[i], p0)
  {
    var ps := PassPorts(p0);
    WriteLamp(p0, RedBit, true);
    WriteLamp(ps[0], AmberBit, true);
    WriteLamp(ps[1], RedBit, false);
    WriteLamp(ps[2], AmberBit, false);
    WriteLamp(ps[3], GreenBit, true);
    WriteLamp(ps[4], GreenBit, false);
    WriteLamp(ps[5], AmberBit, true);
    WriteLamp(ps[6], AmberBit, false);
  }

  /** With the lamps off at the top of the loop, the lamps after each write
      are red; red and amber; amber; off; green; off; amber; off. The lamps
      held through the four delays are red, red and amber, green, amber:
      the British sequence. The last write restores the starting value. */
  lemma CycleLamps(p0: byte)
    requires LampsOf(p0) == Off
    ensures var es := CycleEvents(p0);
      |es| == 12 &&
      LampsOf(es[0].port) == Red && es[1] == Hold(5000) &&
      LampsOf(es[2].port) == RedAmber && es[3] == Hold(2000) &&
      LampsOf(es[4].port) == Amber && LampsOf(es[5].port) == Off &&
      LampsOf(es[6].port) == Green && es[7] == Hold(5000) &&
      LampsOf(es[8].port) == Off && LampsOf(es[9].port) == Amber && es[10] == Hold(2000) &&
      LampsOf(es[11].port) == Off
  {
    PassLamps(p0);
  }

  /** A pass that starts with the lamps off ends on the port value it
      started from. */
  lemma CycleRestores(p0: byte)
    requires LampsOf(p0) == Off
    ensures CycleEvents(p0)[11] == Write(p0)
  {
    var p8 := CycleEvents(p0)[11].port;
    CycleLamps(p0);
    CycleUpper(p0);
    assert SameUpper(p8, p0);
    BytesDetermine(p8, p0);
  }

  /** Only RB0..RB2 are written: every port value of the pass keeps bits
      7..3 of the starting value. */
  lemma CycleUpper(p0: byte)
    ensures forall i :: 0 <= i < |CycleEvents(p0)| && CycleEvents(p0)[i].Write? ==>
      SameUpper(CycleEvents(p0)[i].port, p0)
  {
    PassLamps(p0);
  }

  /** Red and green are never lit together at any point of the pass. */
  lemma CycleSafe(p0: byte)
    requires LampsOf(p0) == Off
    ensures Safe(CycleEvents(p0))
  {
    CycleLamps(p0);
  }

  /** The delays of a pass take 5000 + 2000 + 5000 + 2000 ms, whatever the
      port values. */
  lemma PassTime(ps: seq<byte>)
    requires |ps| == 8
    ensures TotalWait(Pass(ps)) == 14000
  {
    var a := [Write(ps[0]), Hold(5000), Write(ps[1]), Hold(2000)];
    var b := [Write(ps[2]), Write(ps[3]), Write(ps[4]), Hold(5000)];
    var c := [Write(ps[5]), Write(ps[6]), Hold(2000), Write(ps[7])];
    assert Pass(ps) == a + (b + c);
    TotalWaitAppend(a, b + c);
    TotalWaitAppend(b, c);
    TotalWaitOf(a);
    TotalWaitOf(b);
    TotalWaitOf(c);
  }

  /** One pass of the loop body takes 14 seconds of delays. */
  lemma CycleTime(p0: byte)
    ensures TotalWait(CycleEvents(p0)) == 14000
  {
    PassTime(PassPorts(p0));
  }

  /** `k` passes of `es`, one after the other. */
  function Repeat(es: seq<Event>, k: nat): seq<Event>
  {
    if k == 0 then [] else Repeat(es, k - 1) + es
  }

  /** Repeating a run that never lights red and green together keeps it so. */
  lemma {:induction false} RepeatSafe(es: seq<Event>, k: nat)
    requires Safe(es)
    ensures Safe(Repeat(es, k))
  {
    if k > 0 {
      RepeatSafe(es, k - 1);
      SafeAppend(Repeat(es, k - 1), es);
    }
  }

  /** `k` repetitions take `k` times the delays of one. */
  lemma {:induction false} RepeatTime(es: seq<Event>, k: nat)
    ensures TotalWait(Repeat(es, k)) == TotalWait(es) * k
  {
    if k > 0 {
      RepeatTime(es, k - 1);
      TotalWaitAppend(Repeat(es, k - 1), es);
      assert TotalWait(es) * (k - 1) + TotalWait(es) == TotalWait(es) * k;
    }
  }

  class Controller {
    /** PORTB. */
    var port: byte
    /** Every lamp write and delay, in order. */
    var trace: seq<Event>

    ghost predicate LampsOff()
      reads this
    {
      LampsOf(port) == Off
    }

    /** `PORTB = 0` before the loop. */
    constructor ()
      ensures port == 0 && trace == [] && LampsOff()
    {
      port, trace := 0, [];
      ZeroHasNoBits(RedBit);
      ZeroHasNoBits(AmberBit);
      ZeroHasNoBits(GreenBit);
    }

    /** `redLamp1 = v`, `amberLamp1 = v` or `greenLamp1 = v`. */
    method SetLamp(k: nat, on: bool)
      requires k < 3
      modifies this
      ensures port == WriteBit(old(port), k, on)
      ensures trace == old(trace) + [Write(port)]
    {
      port := WriteBit(port, k, on);
      trace := trace + [Write(port)];
    }

    /** `__delay_ms(ms)`. */
    method Pause(ms: nat)
      modifies this
      ensures port == old(port) && trace == old(trace) + [Hold(ms)]
    {
      trace := trace + [Hold(ms)];
    }

    /** One pass of the loop body. It leaves the port as it found it, so the
        next pass starts with the lamps off again. */
    method Cycle()
      requires LampsOff()
      modifies this
      ensures trace == old(trace) + CycleEvents(old(port))
      ensures port == old(port) && LampsOff()
    {
      SetLamp(RedBit, true);
      ghost var q1 := port;
      Pause(5000);
      SetLamp(AmberBit, true);
      ghost var q2 := port;
      Pause(2000);
      SetLamp(RedBit, false);
      ghost var q3 := port;
      SetLamp(AmberBit, false);
      ghost var q4 := port;
      SetLamp(GreenBit, true);
      ghost var q5 := port;
      Pause(5000);
      SetLamp(GreenBit, false);
      ghost var q6 := port;
      SetLamp(AmberBit, true);
      ghost var q7 := port;
      Pause(2000);
      SetLamp(AmberBit, false);
      ghost var ps := [q1, q2, q3, q4, q5, q6, q7, port];
      assert ps == PassPorts(old(port));
      PassSteps(old(trace), ps);
      CycleRestores(old(port));
    }

    /** The `while (1)` loop, cut off after `passes` passes: the trace grows
        by that many copies of one pass, so red and green are never lit
        together and each pass takes 14 seconds of delays. */
    method Run(passes: nat)
      requires LampsOff() && Safe(trace)
      modifies this
      ensures port == old(port)
      ensures trace == old(trace) + Repeat(CycleEvents(old(port)), passes)
      ensures Safe(trace)
      ensures TotalWait(trace) == TotalWait(old(trace)) + 14000 * passes
    {
      var i := 0;
      while i < passes
        invariant i <= passes
        invariant port == old(port) && LampsOff()
        invariant trace == old(trace) + Repeat(CycleEvents(old(port)), i)
      {
        Cycle();
        AppendAssoc(old(trace), Repeat(CycleEvents(old(port)), i), CycleEvents(old(port)));
        i := i + 1;
      }
      var es := CycleEvents(old(port));
      CycleSafe(old(port));
      RepeatSafe(es, passes);
      SafeAppend(old(trace), Repeat(es, passes));
      CycleTime(old(port));
      RepeatTime(es, passes);
      TotalWaitAppend(old(trace), Repeat(es, passes));
    }
  }
}

/** What the firmware does to the LCD's pins, recorded in order. */
module Bus {

  /** One step of a driver. `Strobe(w, ms)` is one transfer: the data port
      is written with `w`, the enable bit E is set and cleared again, and
      then `__delay_ms(ms)` lets the controller settle. `Delay(ms)` is a
      `__delay_ms(ms)` on its own. */
  datatype Step<W> = Strobe(w: W, settleMs: nat) | Delay(ms: nat)

  /** The same steps at pin level: a write of the data port, E driven high,
      E driven low, a delay. */
  datatype Pin<W> = Out(w: W) | EHigh | ELow | Wait(ms: nat)

  /** The values written to the data port, in order. */
  function Writes<W>(t: seq<Step<W>>): seq<W>
  {
    if t == [] then []
    else (if t[0].Strobe? then [t[0].w] else []) + Writes(t[1..])
  }

  /** The milliseconds spent in `__delay_ms`. */
  function Elapsed<W>(t: seq<Step<W>>): nat
  {
    if t == [] then 0
    else (match t[0] case Strobe(_, ms) => ms case Delay(ms) => ms) + Elapsed(t[1..])
  }

  /** The pin activity of `t`. */
  function Pins<W>(t: seq<Step<W>>): seq<Pin<W>>
  {
    if t == [] then []
    else
      (match t[0]
       case Strobe(w, ms) => [Out(w), EHigh, ELow, Wait(ms)]
       case Delay(ms) => [Wait(ms)])
      + Pins(t[1..])
  }

  lemma {:induction false} WritesAppend<W>(a: seq<Step<W>>, b: seq<Step<W>>)
    ensures Writes(a + b) == Writes(a) + Writes(b)
  {
    if a == [] {
      assert a + b == b;
    } else {
      assert (a + b)[0] == a[0];
      assert (a + b)[1..] == a[1..] + b;
      WritesAppend(a[1..], b);
      assert Writes(a + b) == (if a[0].Strobe? then [a[0].w] else []) + Writes(a[1..] + b);
    }
  }

  /** A single transfer writes its value once; a delay writes nothing. */
  lemma WritesSingle<W>(s: Step<W>)
    ensures Writes([s]) == (if s.Strobe? then [s.w] else [])
  {
    assert [s][1..] == [];
  }

  lemma {:induction false} ElapsedAppend<W>(a: seq<Step<W>>, b: seq<Step<W>>)
    ensures Elapsed(a + b) == Elapsed(a) + Elapsed(b)
  {
    if a == [] {
      assert a + b == b;
    } else {
      assert (a + b)[0] == a[0];
      assert (a + b)[1..] == a[1..] + b;
      ElapsedAppend(a[1..], b);
    }
  }

  lemma {:induction false} PinsAppend<W>(a: seq<Step<W>>, b: seq<Step<W>>)
    ensures Pins(a + b) == Pins(a) + Pins(b)
  {
    if a == [] {
      assert a + b == b;
    } else {
      assert (a + b)[0] == a[0];
      assert (a + b)[1..] == a[1..] + b;
      PinsAppend(a[1..], b);
    }
  }

  /** Every step of `t` is a transfer settled for `ms`. */
  predicate Strobes<W>(t: seq<Step<W>>, ms: nat)
  {
    forall i :: 0 <= i < |t| ==> t[i].Strobe? && t[i].settleMs == ms
  }

  /** `p` is a run of complete transfers, each settled for `ms`: every port
      write is followed by exactly one enable pulse and one delay. */
  ghost predicate Framed<W>(p: seq<Pin<W>>, ms: nat)
  {
    |p| % 4 == 0 &&
    forall k :: 0 <= k < |p| / 4 ==>
      p[4 * k].Out? && p[4 * k + 1] == EHigh && p[4 * k + 2] == ELow && p[4 * k + 3] == Wait(ms)
  }

  lemma {:induction false} FramedPrepend<W>(w: W, ms: nat, p: seq<Pin<W>>)
    requires Framed(p, ms)
    ensures Framed([Out(w), EHigh, ELow, Wait(ms)] + p, ms)
  {
    var c := [Out(w), EHigh, ELow, Wait(ms)] + p;
    forall k | 0 <= k < |c| / 4
      ensures c[4 * k].Out? && c[4 * k + 1] == EHigh && c[4 * k + 2] == ELow && c[4 * k + 3] == Wait(ms)
    {
      if k > 0 {
        var j := k - 1;
        assert 0 <= j < |p| / 4;
        assert c[4 * k] == p[4 * j] && c[4 * k + 1] == p[4 * j + 1];
        assert c[4 * k + 2] == p[4 * j + 2] && c[4 * k + 3] == p[4 * j + 3];
      }
    }
  }

  lemma StrobesTail<W>(t: seq<Step<W>>, ms: nat)
    requires t != [] && Strobes(t, ms)
    ensures Strobes(t[1..], ms)
  {
    forall i | 0 <= i < |t[1..]|
      ensures t[1..][i].Strobe? && t[1..][i].settleMs == ms
    {
      assert t[1..][i] == t[i + 1];
    }
  }

  /** A run of transfers pulses E exactly once after every port write and
      then waits: four pin steps per transfer, and one port write and one
      delay per transfer. */
  lemma {:induction false} StrobesFramed<W>(t: seq<Step<W>>, ms: nat)
    requires Strobes(t, ms)
    ensures Framed(Pins(t), ms) && |Pins(t)| == 4 * |t|
    ensures |Writes(t)| == |t| && Elapsed(t) == ms * |t|
  {
    if t != [] {
      StrobesTail(t, ms);
      StrobesFramed(t[1..], ms);
      assert t[0] == Strobe(t[0].w, ms);
      assert Pins(t) == [Out(t[0].w), EHigh, ELow, Wait(ms)] + Pins(t[1..]);
      assert Writes(t) == [t[0].w] + Writes(t[1..]);
      assert Elapsed(t) == ms + Elapsed(t[1..]);
      FramedPrepend(t[0].w, ms, Pins(t[1..]));
    }
  }
}

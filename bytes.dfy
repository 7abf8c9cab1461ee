/** The `unsigned char` arithmetic of the LCD drivers. A byte is kept as an
    integer in 0..255. C's `|` is defined bit by bit on naturals and proved
    to be the bitwise OR; the nibble operations the drivers spell with shifts
    and masks are given arithmetically and proved equal to those spellings
    on `bv8`. */
module Bytes {

  newtype byte = x: int | 0 <= x < 256

  function Pow2(k: nat): (p: nat)
    ensures p >= 1
  {
    if k == 0 then 1 else 2 * Pow2(k - 1)
  }

  /** Bit `k` of `x`: the lowest bit of `x` shifted right `k` places. */
  predicate Bit(x: nat, k: nat)
  {
    if k == 0 then x % 2 == 1 else Bit(x / 2, k - 1)
  }

  /** Bit `k` of a byte. */
  predicate BitOf(x: byte, k: nat)
  {
    Bit(x as nat, k)
  }

  /** The OR of two naturals, lowest bit first. */
  function OrNat(a: nat, b: nat): nat
    decreases a + b
  {
    if a == 0 then b
    else if b == 0 then a
    else 2 * OrNat(a / 2, b / 2) + (if a % 2 == 1 || b % 2 == 1 then 1 else 0)
  }

  /** OR-ing two `k`-bit numbers gives a `k`-bit number. */
  lemma {:induction false} OrNatBound(a: nat, b: nat, k: nat)
    requires a < Pow2(k) && b < Pow2(k)
    ensures OrNat(a, b) < Pow2(k)
    decreases a + b
  {
    if a != 0 && b != 0 {
      assert k > 0;
      OrNatBound(a / 2, b / 2, k - 1);
    }
  }

  /** C's `a | b` on two `unsigned char`s. */
  function Or(a: byte, b: byte): byte
  {
    OrNatBound(a as nat, b as nat, 8);
    OrNat(a as nat, b as nat) as byte
  }

  lemma {:induction false} ZeroHasNoBits(k: nat)
    ensures !Bit(0, k)
  {
    if k > 0 {
      ZeroHasNoBits(k - 1);
    }
  }

  /** `OrNat` is the bitwise OR: every bit of the result is set exactly
      when it is set in one of the operands. */
  lemma {:induction false} OrNatIsBitwise(a: nat, b: nat, k: nat)
    ensures Bit(OrNat(a, b), k) <==> Bit(a, k) || Bit(b, k)
    decreases k
  {
    if k == 0 || a == 0 || b == 0 {
      ZeroHasNoBits(k);
    } else {
      var c := if a % 2 == 1 || b % 2 == 1 then 1 else 0;
      var r := OrNat(a, b);
      assert r == 2 * OrNat(a / 2, b / 2) + c;
      assert r / 2 == OrNat(a / 2, b / 2);
      OrNatIsBitwise(a / 2, b / 2, k - 1);
    }
  }

  /** The byte OR sets each of the eight bits that one operand sets. */
  lemma OrIsBitwise(a: byte, b: byte, k: nat)
    requires k < 8
    ensures BitOf(Or(a, b), k) <==> BitOf(a, k) || BitOf(b, k)
  {
    OrNatIsBitwise(a as nat, b as nat, k);
  }

  /** OR-ing a `k`-bit number with bit `k` adds that bit. */
  lemma {:induction false} OrNatPow2(a: nat, k: nat)
    requires a < Pow2(k)
    ensures OrNat(a, Pow2(k)) == a + Pow2(k)
    decreases k
  {
    if a != 0 {
      assert k > 0;
      OrNatPow2(a / 2, k - 1);
      assert Pow2(k) / 2 == Pow2(k - 1) && Pow2(k) % 2 == 0;
    }
  }

  /** `x` with bit `k` replaced by `v`, every other bit kept. */
  function WriteBitNat(x: nat, k: nat, v: bool): nat
    decreases k
  {
    if k == 0 then 2 * (x / 2) + (if v then 1 else 0)
    else 2 * WriteBitNat(x / 2, k - 1, v) + x % 2
  }

  lemma {:induction false} WriteBitNatBits(x: nat, k: nat, v: bool, j: nat)
    ensures Bit(WriteBitNat(x, k, v), j) <==> (if j == k then v else Bit(x, j))
    decreases k
  {
    var y := WriteBitNat(x, k, v);
    if k > 0 && j > 0 {
      assert y / 2 == WriteBitNat(x / 2, k - 1, v);
      WriteBitNatBits(x / 2, k - 1, v, j - 1);
    } else if k == 0 && j > 0 {
      assert y / 2 == x / 2;
    }
  }

  lemma {:induction false} WriteBitNatBound(x: nat, k: nat, v: bool, m: nat)
    requires x < Pow2(m) && k < m
    ensures WriteBitNat(x, k, v) < Pow2(m)
    decreases k
  {
    assert Pow2(m) == 2 * Pow2(m - 1);
    assert x / 2 < Pow2(m - 1);
    if k > 0 {
      WriteBitNatBound(x / 2, k - 1, v, m - 1);
      assert WriteBitNat(x, k, v) == 2 * WriteBitNat(x / 2, k - 1, v) + x % 2;
    }
  }

  /** The assignment `PORTxbits.Rxk = v` to one bit field of a port. */
  function WriteBit(x: byte, k: nat, v: bool): byte
    requires k < 8
  {
    WriteBitNatBound(x as nat, k, v, 8);
    WriteBitNat(x as nat, k, v) as byte
  }

  /** Writing bit `k` sets it to `v` and leaves every other bit as it was. */
  lemma WriteBitBits(x: byte, k: nat, v: bool)
    requires k < 8
    ensures BitOf(WriteBit(x, k, v), k) == v
    ensures forall j: nat :: j != k ==> (BitOf(WriteBit(x, k, v), j) <==> BitOf(x, j))
  {
    WriteBitNatBits(x as nat, k, v, k);
    forall j: nat | j != k
      ensures BitOf(WriteBit(x, k, v), j) <==> BitOf(x, j)
    {
      WriteBitNatBits(x as nat, k, v, j);
    }
  }

  /** Two `m`-bit numbers with the same bits are equal. */
  lemma {:induction false} BitsDetermine(a: nat, b: nat, m: nat)
    requires a < Pow2(m) && b < Pow2(m)
    requires forall j: nat :: j < m ==> (Bit(a, j) <==> Bit(b, j))
    ensures a == b
    decreases m
  {
    if m > 0 {
      assert Bit(a, 0) <==> Bit(b, 0);
      forall j: nat | j < m - 1
        ensures Bit(a / 2, j) <==> Bit(b / 2, j)
      {
        assert Bit(a, j + 1) <==> Bit(b, j + 1);
      }
      BitsDetermine(a / 2, b / 2, m - 1);
    }
  }

  /** A byte is determined by its eight bits. */
  lemma BytesDetermine(a: byte, b: byte)
    requires forall j: nat :: j < 8 ==> (BitOf(a, j) <==> BitOf(b, j))
    ensures a == b
  {
    var x, y := a as nat, b as nat;
    forall j: nat | j < 8
      ensures Bit(x, j) <==> Bit(y, j)
    {
      assert BitOf(a, j) <==> BitOf(b, j);
    }
    BitsDetermine(x, y, 8);
  }

  /** `b >> 4`: the upper four bits moved down to bits 3..0. */
  function High(b: byte): byte
  {
    b / 16
  }

  /** `b & 0x0F`: the lower four bits. */
  function Low(b: byte): byte
  {
    b % 16
  }

  /** `(x << 4 | x >> 4)` assigned back to an `unsigned char`: the shift
      left loses bits 7..4 once the result is truncated to eight bits. */
  function Swap(x: byte): byte
  {
    Low(x) * 16 + High(x)
  }

  /** The three definitions above are the C expressions they stand for. */
  lemma NibblesAreShifts(x: bv8)
    ensures High(x as byte) == (x >> 4) as byte
    ensures Low(x as byte) == (x & 0x0F) as byte
    ensures Swap(x as byte) == ((x << 4) | (x >> 4)) as byte
  {
  }

  lemma RotationByFour(x: bv8)
    ensures x.RotateLeft(4) == (x << 4) | (x >> 4) == x.RotateRight(4)
  {
  }

  /** The swap is the 8-bit rotation by four places. */
  lemma SwapIsRotation(x: bv8)
    ensures Swap(x as byte) == x.RotateLeft(4) as byte
  {
    RotationByFour(x);
    NibblesAreShifts(x);
  }

  /** Both nibbles are below 16 and together they make up the byte. */
  lemma NibbleSplit(b: byte)
    ensures High(b) < 16 && Low(b) < 16
    ensures b == High(b) * 16 + Low(b)
  {
  }

  /** Swapping twice gives back the original byte. */
  lemma SwapInvolution(x: byte)
    ensures Swap(Swap(x)) == x
  {
  }

  /** After one swap the nibbles have traded places. */
  lemma HighOfSwap(x: byte)
    ensures High(Swap(x)) == Low(x)
  {
  }

  lemma LowOfSwap(x: byte)
    ensures Low(Swap(x)) == High(x)
  {
  }

  /** A byte is determined by its two nibbles. */
  lemma NibblesDetermineByte(a: byte, b: byte)
    ensures (High(a) == High(b) && Low(a) == Low(b)) <==> a == b
  {
  }

  /** OR-ing a nibble with 0x00 or 0x10 is adding it: the bits are
      disjoint. */
  lemma OrIntoBitFour(v: byte, rs: byte)
    requires v < 16 && (rs == 0x00 || rs == 0x10)
    ensures Or(v, rs) == v + rs
  {
    if rs == 0x10 {
      OrNatPow2(v as nat, 4);
    }
  }
}

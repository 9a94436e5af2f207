/**
  Bitwise operations on machine words, defined bit by bit: the value of an operation is the number
  whose bits are the boolean operation on the bits of its operands.
*/
module Bits {
  const TWO_32: int := 0x1_0000_0000
  const TWO_64: int := 0x1_0000_0000_0000_0000

  type u32 = x: int | 0 <= x < TWO_32
  type u64 = x: int | 0 <= x < TWO_64

  function Pow2(n: nat): (p: nat)
    ensures p >= 1
  {
    if n == 0 then 1 else 2 * Pow2(n - 1)
  }

  lemma Pow2Of32()
    ensures Pow2(8) == 256 && Pow2(31) == TWO_32 / 2 && Pow2(32) == TWO_32
  {
    assert Pow2(12) == 0x1000;
    assert Pow2(18) == 0x4_0000;
    assert Pow2(24) == 0x100_0000;
    assert Pow2(28) == 0x1000_0000;
  }

  /** Bit `i` of `x`, counted from the least significant. */
  function Bit(x: nat, i: nat): (b: nat)
    ensures b <= 1
  {
    if i == 0 then x % 2 else Bit(x / 2, i - 1)
  }

  datatype Gate = AndGate | OrGate | XorGate
  {
    function Of(a: nat, b: nat): (r: nat)
      requires a <= 1 && b <= 1
      ensures r <= 1
    {
      match this
      case AndGate => a * b
      case OrGate => if a + b > 0 then 1 else 0
      case XorGate => if a == b then 0 else 1
    }
  }

  /** The lowest `bits` bits of `x` and `y`, combined pairwise. */
  function Bitwise(gate: Gate, x: nat, y: nat, bits: nat): (r: nat)
    ensures r < Pow2(bits)
  {
    if bits == 0 then 0 else 2 * Bitwise(gate, x / 2, y / 2, bits - 1) + gate.Of(x % 2, y % 2)
  }

  function And(x: u32, y: u32): u32 {
    Pow2Of32();
    Bitwise(AndGate, x, y, 32)
  }

  function Xor(x: u32, y: u32): u32 {
    Pow2Of32();
    Bitwise(XorGate, x, y, 32)
  }

  function Not(x: u32): u32 { TWO_32 - 1 - x }

  function ShiftRight(x: u32, n: nat): u32 {
    if n == 0 then x else ShiftRight(x, n - 1) / 2
  }

  /** One bit falls out on the right and comes back in on the left. */
  function RotateOne(x: u32): u32 { x / 2 + (x % 2) * (TWO_32 / 2) }

  function RotateRight(x: u32, n: nat): u32 {
    if n == 0 then x else RotateOne(RotateRight(x, n - 1))
  }

  function WrappingAdd(x: u32, y: u32): u32 { (x + y) % TWO_32 }

  // ---- what the definitions mean, bit by bit ----

  lemma {:induction false} BitwiseMeans(gate: Gate, x: nat, y: nat, bits: nat, i: nat)
    requires i < bits
    ensures Bit(Bitwise(gate, x, y, bits), i) == gate.Of(Bit(x, i), Bit(y, i))
  {
    if i > 0 {
      BitwiseMeans(gate, x / 2, y / 2, bits - 1, i - 1);
    }
  }

  lemma {:induction false} NotMeans(x: nat, bits: nat, i: nat)
    requires i < bits && x < Pow2(bits)
    ensures Bit(Pow2(bits) - 1 - x, i) == 1 - Bit(x, i)
  {
    var y := Pow2(bits) - 1 - x;
    assert y == 2 * (Pow2(bits - 1) - 1 - x / 2) + (1 - x % 2);
    if i > 0 {
      NotMeans(x / 2, bits - 1, i - 1);
    }
  }

  lemma {:induction false} BitsAbove(x: nat, i: nat)
    requires x < Pow2(i)
    ensures Bit(x, i) == 0
  {
    if i > 0 {
      BitsAbove(x / 2, i - 1);
    }
  }

  lemma {:induction false} HighBit(x: nat, b: nat, n: nat, i: nat)
    requires x < Pow2(n) && b <= 1 && i <= n
    ensures Bit(x + b * Pow2(n), i) == if i == n then b else Bit(x, i)
  {
    if n > 0 {
      assert (x + b * Pow2(n)) == 2 * (x / 2 + b * Pow2(n - 1)) + x % 2;
      if i > 0 {
        HighBit(x / 2, b, n - 1, i - 1);
      }
    }
  }

  lemma {:induction false} RotateOneMeans(x: u32, i: nat)
    requires i < 32
    ensures Bit(RotateOne(x), i) == Bit(x, (i + 1) % 32)
  {
    Pow2Of32();
    HighBit(x / 2, x % 2, 31, i);
  }

  lemma Wheel(i: nat, n: nat)
    requires n > 0
    ensures ((i + 1) % 32 + (n - 1)) % 32 == (i + n) % 32
  {
  }

  /** Rotation to the right by `n` (section 3.2 of FIPS 180-4). */
  lemma {:induction false} RotateMeans(x: u32, n: nat, i: nat)
    requires i < 32
    ensures Bit(RotateRight(x, n), i) == Bit(x, (i + n) % 32)
  {
    if n > 0 {
      RotateOneMeans(RotateRight(x, n - 1), i);
      RotateMeans(x, n - 1, (i + 1) % 32);
      Wheel(i, n);
    }
  }

  lemma {:induction false} ShiftMeans(x: u32, n: nat, i: nat)
    ensures Bit(ShiftRight(x, n), i) == Bit(x, i + n)
  {
    if n > 0 {
      ShiftMeans(x, n - 1, i + 1);
    }
  }

  /** Exclusive or is zero exactly on equal words. */
  lemma {:induction false} XorIsZeroIffEqual(x: nat, y: nat, bits: nat)
    requires x < Pow2(bits) && y < Pow2(bits)
    ensures Bitwise(XorGate, x, y, bits) == 0 <==> x == y
  {
    if bits > 0 {
      XorIsZeroIffEqual(x / 2, y / 2, bits - 1);
    }
  }

  lemma {:induction false} OrIsZeroIffBoth(x: nat, y: nat, bits: nat)
    requires x < Pow2(bits) && y < Pow2(bits)
    ensures Bitwise(OrGate, x, y, bits) == 0 <==> x == 0 && y == 0
  {
    if bits > 0 {
      OrIsZeroIffBoth(x / 2, y / 2, bits - 1);
    }
  }
}

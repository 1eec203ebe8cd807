// Fixed-width integers of the emulator. The source stores registers and
// memory in NumPy uint8/uint16 arrays; here they are mathematical integers
// kept in range by the types below, and every wrap-around is written out.
// Bits and the bitwise operations are defined arithmetically, bit by bit
// from the least significant end.
module Bytes {

  /** An 8-bit cell: a register of the register file or a memory byte. */
  type byte = x: int | 0 <= x < 0x100

  /** A 16-bit cell: SP, PC or a memory address. */
  type word = x: int | 0 <= x < 0x1_0000

  /** Truncation to 8 bits (the source's `& 0xFF` and uint8 wrap-around). */
  function Wrap8(x: int): (r: byte)
  {
    x % 0x100
  }

  /** Truncation to 16 bits (uint16 wrap-around of SP and PC). */
  function Wrap16(x: int): (r: word)
  {
    x % 0x1_0000
  }

  /** Wrapping an intermediate sum does not change the final 16-bit result. */
  lemma Wrap16Shift(x: int, k: int)
    ensures Wrap16(Wrap16(x) + k) == Wrap16(x + k)
  {
    var q := x / 0x1_0000;
    assert x == 0x1_0000 * q + Wrap16(x);
    DivUnique(x + k - 0x1_0000 * q + 0x1_0000 * q, 0x1_0000, (Wrap16(x) + k) / 0x1_0000 + q, Wrap16(Wrap16(x) + k));
  }

  /** The 16-bit value whose high byte is `hi` and low byte is `lo`. */
  function Word(hi: byte, lo: byte): (w: word)
    ensures w / 0x100 == hi && w % 0x100 == lo
  {
    hi * 0x100 + lo
  }

  // ---- bits ----------------------------------------------------------------------

  function Pow2(n: nat): (p: nat)
    ensures p >= 1
  {
    if n == 0 then 1 else 2 * Pow2(n - 1)
  }

  /** Bit `k` (0 = least significant) of `x`. */
  function Bit(x: nat, k: nat): bool
  {
    (x / Pow2(k)) % 2 == 1
  }

  lemma MulAtLeast(d: int, k: int)
    requires d > 0 && k >= 1
    ensures d * k >= d
  {
  }

  /** Quotient and remainder are the only pair with n = d*q + r and 0 <= r < d. */
  lemma DivUnique(n: int, d: int, q: int, r: int)
    requires 0 < d && 0 <= r < d && n == d * q + r
    ensures n / d == q && n % d == r
  {
    var q', r' := n / d, n % d;
    assert d * q + r == d * q' + r';
    if q > q' {
      assert d * q - d * q' == d * (q - q');
      MulAtLeast(d, q - q');
    } else if q < q' {
      assert d * q' - d * q == d * (q' - q);
      MulAtLeast(d, q' - q);
    }
  }

  lemma HalveDiv(x: nat, c: nat, p: nat)
    requires c < 2 && p >= 1
    ensures (2 * x + c) / (2 * p) == x / p
  {
    var q, r := x / p, x % p;
    assert x == p * q + r;
    assert 2 * x + c == (2 * p) * q + (2 * r + c);
    DivUnique(2 * x + c, 2 * p, q, 2 * r + c);
  }

  /** Bit k + 1 of x is bit k of x halved. */
  lemma BitHalve(x: nat, k: nat)
    requires k > 0
    ensures Bit(x, k) == Bit(x / 2, k - 1)
  {
    HalveDiv(x / 2, x % 2, Pow2(k - 1));
  }

  /** Bit 7 of a byte is set exactly when the byte is at least 0x80. */
  lemma BitSevenIsHighHalf(x: byte)
    ensures Bit(x, 7) <==> x >= 0x80
  {
  }

  /** Bit 0 of a byte is set exactly when the byte is odd. */
  lemma BitZeroIsOddness(x: byte)
    ensures Bit(x, 0) <==> x % 2 == 1
  {
  }

  function BoolToNat(b: bool): nat
  {
    if b then 1 else 0
  }

  /** The number whose binary digits, least significant first, are `bits`. */
  function FromBits(bits: seq<bool>): nat
  {
    if bits == [] then 0 else BoolToNat(bits[0]) + 2 * FromBits(bits[1..])
  }

  lemma {:induction false} FromBitsBound(bits: seq<bool>)
    ensures FromBits(bits) < Pow2(|bits|)
  {
    if bits != [] {
      FromBitsBound(bits[1..]);
    }
  }

  /** Bit k of the packed number is the k-th flag of the list. */
  lemma {:induction false} BitOfFromBits(bits: seq<bool>, k: nat)
    requires k < |bits|
    ensures Bit(FromBits(bits), k) == bits[k]
  {
    var x := FromBits(bits);
    if k > 0 {
      BitHalve(x, k);
      assert x / 2 == FromBits(bits[1..]);
      BitOfFromBits(bits[1..], k - 1);
    }
  }

  // ---- bitwise operations -------------------------------------------------------------

  /** The three bitwise operations NumPy applies to uint8 cells. */
  datatype BitOp = And | Xor | Or

  function CombineBit(op: BitOp, x: bool, y: bool): bool
  {
    match op
    case And => x && y
    case Xor => x != y
    case Or => x || y
  }

  /** `a op b` on naturals, combining the binary digits pairwise. */
  function Bitwise(op: BitOp, a: nat, b: nat): nat
    decreases a + b
  {
    if a == 0 && b == 0 then 0
    else BoolToNat(CombineBit(op, a % 2 == 1, b % 2 == 1)) + 2 * Bitwise(op, a / 2, b / 2)
  }

  lemma {:induction false} BitwiseBound(op: BitOp, a: nat, b: nat, n: nat)
    requires a < Pow2(n) && b < Pow2(n)
    ensures Bitwise(op, a, b) < Pow2(n)
    decreases n
  {
    if n > 0 && !(a == 0 && b == 0) {
      BitwiseBound(op, a / 2, b / 2, n - 1);
    }
  }

  /** Bit k of `a op b` is `op` applied to bit k of a and bit k of b. */
  lemma {:induction false} BitOfBitwise(op: BitOp, a: nat, b: nat, k: nat)
    ensures Bit(Bitwise(op, a, b), k) == CombineBit(op, Bit(a, k), Bit(b, k))
    decreases k
  {
    if a == 0 && b == 0 {
      assert !Bit(0, k);
    } else if k > 0 {
      var x := Bitwise(op, a, b);
      BitHalve(x, k);
      BitHalve(a, k);
      BitHalve(b, k);
      assert x / 2 == Bitwise(op, a / 2, b / 2);
      BitOfBitwise(op, a / 2, b / 2, k - 1);
    }
  }

  /** `a op b` on two bytes (NumPy `&`, `^`, `|` on uint8). */
  function Combine8(op: BitOp, a: byte, b: byte): byte
  {
    BitwiseBound(op, a, b, 8);
    Bitwise(op, a, b)
  }
}

/** The fixed-width integer types and the byte/word helpers of include/mos6502.hpp
    (lines 7-23, 76-78). C++ `u8`, `u16` and `u32` are integer ranges here; every
    place where the C++ truncates a wider result into one of them is written out
    as a `%`. */
module Bits {

  type u8 = x: int | 0 <= x < 0x100
  type u16 = x: int | 0 <= x < 0x1_0000
  type u32 = x: int | 0 <= x < 0x1_0000_0000

  /** Bytes to wyde: the 16-bit word with high byte `high` and low byte `low`. */
  function B2W(low: u8, high: u8): u16
  {
    high * 256 + low
  }

  /** A word built from two bytes gives them back: `high` as its high byte, `low` as
      its remainder modulo 256. */
  lemma B2WBytes(low: u8, high: u8)
    ensures HighByte(B2W(low, high)) == high && B2W(low, high) % 256 == low
  {
  }

  /** The source's `lowByte` masks with 0x0F, so only the low NIBBLE of the word
      survives, not its low byte. */
  function LowByte(x: u16): u8
  {
    x % 16
  }

  /** `x >> 8`: the high byte of a word. */
  function HighByte(x: u16): u8
  {
    x / 256
  }

  /** `x >> 7`: bit 7 of a byte. */
  predicate SignBit(x: u8)
  {
    x >= 0x80
  }

  /** `x & 0x01`: bit 0 of a byte. */
  predicate LowBit(x: u8)
  {
    x % 2 == 1
  }

  /** Two words lie on different 256-byte pages. */
  predicate OnDifferentPages(x: u16, y: u16)
  {
    HighByte(x) != HighByte(y)
  }

  /** The C++ cast `(s8) x`: the byte read as a two's-complement number. */
  function ToSigned(x: u8): (r: int)
    ensures -128 <= r < 128
    ensures (r + 256) % 256 == x
    ensures r < 0 <==> SignBit(x)
  {
    if x < 0x80 then x else x - 256
  }

  function Pow2(n: nat): (p: nat)
    ensures p >= 1
  {
    if n == 0 then 1 else 2 * Pow2(n - 1)
  }

  /** Bit `k` of `x`, counting from the least significant bit 0. */
  function BitOf(x: nat, k: nat): (b: nat)
    ensures b < 2
  {
    if k == 0 then x % 2 else BitOf(x / 2, k - 1)
  }

  datatype BitOp = AndOp | XorOp | OrOp

  /** The operator applied to one pair of bits. */
  function Combine(op: BitOp, a: nat, b: nat): nat
    requires a < 2 && b < 2
  {
    match op
    case AndOp => if a == 1 && b == 1 then 1 else 0
    case XorOp => if a != b then 1 else 0
    case OrOp => if a == 1 || b == 1 then 1 else 0
  }

  /** The C++ operators `&`, `^` and `|` on the low `n` bits of two numbers,
      computed bit by bit from the least significant one. */
  function Bitwise(op: BitOp, a: nat, b: nat, n: nat): (r: nat)
    ensures r < Pow2(n)
  {
    if n == 0 then 0
    else 2 * Bitwise(op, a / 2, b / 2, n - 1) + Combine(op, a % 2, b % 2)
  }

  function BitwiseAnd(a: u8, b: u8): u8
  {
    Bitwise(AndOp, a, b, 8)
  }

  function BitwiseEor(a: u8, b: u8): u8
  {
    Bitwise(XorOp, a, b, 8)
  }

  function BitwiseOr(a: u8, b: u8): u8
  {
    Bitwise(OrOp, a, b, 8)
  }

  /** Bit `k` of the combination is the operator applied to bit `k` of each operand. */
  lemma {:induction false} BitwiseBit(op: BitOp, a: nat, b: nat, n: nat, k: nat)
    requires k < n
    ensures BitOf(Bitwise(op, a, b, n), k) == Combine(op, BitOf(a, k), BitOf(b, k))
  {
    var r := Bitwise(op, a, b, n);
    var rest := Bitwise(op, a / 2, b / 2, n - 1);
    if k == 0 {
      assert r % 2 == Combine(op, a % 2, b % 2);
    } else {
      BitwiseBit(op, a / 2, b / 2, n - 1, k - 1);
      assert r / 2 == rest;
    }
  }

  /** Exclusive or with the same operand twice gives back the first operand. */
  lemma {:induction false} EorTwice(a: nat, b: nat, n: nat)
    requires a < Pow2(n)
    ensures Bitwise(XorOp, Bitwise(XorOp, a, b, n), b, n) == a
  {
    if n > 0 {
      EorTwice(a / 2, b / 2, n - 1);
      var r := Bitwise(XorOp, a, b, n);
      assert r / 2 == Bitwise(XorOp, a / 2, b / 2, n - 1);
      assert r % 2 == Combine(XorOp, a % 2, b % 2);
    }
  }

  /** `x` with bit `k` replaced by `b` (for a flag: `(x & ~MASK) + b * MASK`). */
  function SetBit(x: nat, k: nat, b: nat): nat
    requires b < 2
  {
    if k == 0 then x - x % 2 + b else 2 * SetBit(x / 2, k - 1, b) + x % 2
  }

  /** After SetBit, bit `k` is `b`. */
  lemma {:induction false} SetBitGet(x: nat, k: nat, b: nat)
    requires b < 2
    ensures BitOf(SetBit(x, k, b), k) == b
  {
    if k > 0 {
      SetBitGet(x / 2, k - 1, b);
      assert SetBit(x, k, b) / 2 == SetBit(x / 2, k - 1, b);
    }
  }

  /** SetBit leaves every other bit alone. */
  lemma {:induction false} SetBitOther(x: nat, k: nat, b: nat, j: nat)
    requires b < 2 && j != k
    ensures BitOf(SetBit(x, k, b), j) == BitOf(x, j)
  {
    var r := SetBit(x, k, b);
    if k == 0 {
      assert r / 2 == x / 2;
    } else if j == 0 {
      assert r % 2 == x % 2;
    } else {
      SetBitOther(x / 2, k - 1, b, j - 1);
      assert r / 2 == SetBit(x / 2, k - 1, b);
    }
  }

  /** SetBit below bit `n` keeps a number below 2^n. */
  lemma {:induction false} SetBitBound(x: nat, k: nat, b: nat, n: nat)
    requires b < 2 && x < Pow2(n) && k < n
    ensures SetBit(x, k, b) < Pow2(n)
  {
    assert Pow2(n) == 2 * Pow2(n - 1);
    assert x / 2 < Pow2(n - 1);
    if k > 0 {
      SetBitBound(x / 2, k - 1, b, n - 1);
      assert SetBit(x, k, b) == 2 * SetBit(x / 2, k - 1, b) + x % 2;
    } else {
      assert SetBit(x, k, b) == 2 * (x / 2) + b;
    }
  }

  /** Bit `n` of a number below 2^(n+1) is set exactly when the number is at least 2^n. */
  lemma {:induction false} TopBit(x: nat, n: nat)
    requires x < 2 * Pow2(n)
    ensures BitOf(x, n) == if x >= Pow2(n) then 1 else 0
  {
    if n > 0 {
      TopBit(x / 2, n - 1);
    }
  }

  /** `signBit(x)` is bit 7 of `x`. */
  lemma SignBitIsBit7(x: u8)
    ensures SignBit(x) <==> BitOf(x, 7) == 1
  {
    TopBit(x, 7);
  }
}

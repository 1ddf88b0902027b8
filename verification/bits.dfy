/**
 * Machine-integer helpers: bitwise OR on non-negative integers, the one bit
 * operation of the trigger encoders that is not a plain `%` (for `& 0xFF`) or
 * `/` (for `>> 8`), and C#'s unchecked 32-bit `int` arithmetic.
 */
module Bits {

  function Pow2(k: nat): (p: nat)
    ensures p >= 1
  {
    if k == 0 then 1 else 2 * Pow2(k - 1)
  }

  /** a | b, bit by bit from the least significant end. */
  function BitOr(a: nat, b: nat): nat
    decreases a + b
  {
    if a == 0 then b
    else if b == 0 then a
    else 2 * BitOr(a / 2, b / 2) + (if a % 2 == 1 || b % 2 == 1 then 1 else 0)
  }

  lemma {:induction false} BitOrCommutes(a: nat, b: nat)
    ensures BitOr(a, b) == BitOr(b, a)
    decreases a + b
  {
    if a != 0 && b != 0 {
      BitOrCommutes(a / 2, b / 2);
    }
  }

  /** OR-ing a value below 2^k with a multiple of 2^k is addition: the bits do not overlap. */
  lemma {:induction false} BitOrDisjoint(t: nat, e: nat, k: nat)
    requires t < Pow2(k)
    ensures BitOr(t, e * Pow2(k)) == t + e * Pow2(k)
  {
    if k == 0 {
      assert t == 0;
    } else if t != 0 && e != 0 {
      var h := e * Pow2(k - 1);
      assert e * Pow2(k) == 2 * h;
      assert (2 * h) / 2 == h && (2 * h) % 2 == 0;
      BitOrDisjoint(t / 2, e, k - 1);
    }
  }

  /** The OR of two k-bit values is a k-bit value. */
  lemma {:induction false} BitOrBound(a: nat, b: nat, k: nat)
    requires a < Pow2(k) && b < Pow2(k)
    ensures BitOr(a, b) < Pow2(k)
  {
    if k > 0 && a != 0 && b != 0 {
      BitOrBound(a / 2, b / 2, k - 1);
    }
  }

  /** OR-ing two values whose low k bits are t and 0 combines their high parts and keeps t. */
  lemma BitOrShift(t: nat, e: nat, f: nat, k: nat)
    requires t < Pow2(k)
    ensures BitOr(t + e * Pow2(k), f * Pow2(k)) == t + BitOr(e, f) * Pow2(k)
  {
    ShlIsMul(e, k);
    ShlIsMul(f, k);
    ShlIsMul(BitOr(e, f), k);
    BitOrShiftShl(t, e, f, k);
  }

  /** e << k, as repeated doubling. */
  function Shl(e: nat, k: nat): nat {
    if k == 0 then e else 2 * Shl(e, k - 1)
  }

  lemma {:induction false} ShlIsMul(e: nat, k: nat)
    ensures Shl(e, k) == e * Pow2(k)
  {
    if k > 0 {
      ShlIsMul(e, k - 1);
      MulDouble(e, Pow2(k - 1));
    }
  }

  lemma {:induction false} ShlPositive(e: nat, k: nat)
    ensures e == 0 ==> Shl(e, k) == 0
    ensures e != 0 ==> Shl(e, k) >= 1
  {
    if k > 0 {
      ShlPositive(e, k - 1);
    }
  }

  /** BitOrShift with the shifts written as repeated doubling. */
  lemma {:induction false} BitOrShiftShl(t: nat, e: nat, f: nat, k: nat)
    requires t < Pow2(k)
    ensures BitOr(t + Shl(e, k), Shl(f, k)) == t + Shl(BitOr(e, f), k)
  {
    ShlPositive(f, k);
    ShlPositive(e, k);
    if k == 0 {
    } else if f == 0 {
      assert BitOr(t + Shl(e, k), 0) == t + Shl(e, k);
      assert BitOr(e, 0) == e;
    } else if t == 0 && e == 0 {
      assert BitOr(0, f) == f;
    } else {
      BitOrShiftShl(t / 2, e, f, k - 1);
      BitOrShiftShlStep(t, e, f, k);
    }
  }

  /** The inductive case of BitOrShiftShl, given the claim for t / 2 and k - 1. */
  lemma BitOrShiftShlStep(t: nat, e: nat, f: nat, k: nat)
    requires k > 0 && f != 0 && (t != 0 || e != 0)
    requires BitOr(t / 2 + Shl(e, k - 1), Shl(f, k - 1)) == t / 2 + Shl(BitOr(e, f), k - 1)
    ensures BitOr(t + Shl(e, k), Shl(f, k)) == t + Shl(BitOr(e, f), k)
  {
    ShlPositive(f, k - 1);
    ShlPositive(e, k - 1);
    var lo, x := t % 2, t / 2 + Shl(e, k - 1);
    var y, b := Shl(f, k - 1), Shl(BitOr(e, f), k - 1);
    assert t + Shl(e, k) == 2 * x + lo && Shl(f, k) == 2 * y;
    BitOrStep(lo, x, y);
  }

  lemma MulDouble(e: nat, p: nat)
    ensures e * (2 * p) == 2 * (e * p)
  {
  }

  /** One step of BitOr when the second operand is even: the low bit comes from the first. */
  lemma BitOrStep(lo: nat, x: nat, y: nat)
    requires lo < 2 && y != 0 && (x != 0 || lo != 0)
    ensures BitOr(2 * x + lo, 2 * y) == 2 * BitOr(x, y) + lo
  {
    assert (2 * x + lo) / 2 == x && (2 * x + lo) % 2 == lo;
    assert (2 * y) / 2 == y && (2 * y) % 2 == 0;
  }

  lemma Pow2Byte()
    ensures Pow2(8) == 0x100
  {
    assert Pow2(4) == 16;
  }

  lemma Pow2Short()
    ensures Pow2(16) == 0x1_0000
  {
    Pow2Byte();
    assert Pow2(12) == 16 * Pow2(8);
  }

  // ---------------------------------------------------------------------
  // C# int arithmetic, which is unchecked: results wrap modulo 2^32
  // ---------------------------------------------------------------------

  /** Whether x is a value of C#'s 32-bit int. */
  predicate InInt32(x: int) {
    -0x8000_0000 <= x < 0x8000_0000
  }

  /** Whether a and b are equal modulo 2^32. */
  predicate Congruent32(a: int, b: int) {
    (a - b) % 0x1_0000_0000 == 0
  }

  /** C#'s unchecked conversion to int: the value modulo 2^32, read as two's complement. */
  function Int32(x: int): (r: int)
    ensures InInt32(r) && Congruent32(x, r)
    ensures InInt32(x) ==> r == x
  {
    var m := x % 0x1_0000_0000;
    if m >= 0x8000_0000 then m - 0x1_0000_0000 else m
  }

  /** The wrap takes away a whole number of 2^32 steps: as many as x + 2^31 holds. */
  lemma Int32Steps(x: int)
    ensures Int32(x) == x - 0x1_0000_0000 * ((x + 0x8000_0000) / 0x1_0000_0000)
  {
  }

  /** Values 2^32 steps apart wrap to the same int. */
  lemma Int32Shift(x: int, k: int)
    ensures Int32(x + 0x1_0000_0000 * k) == Int32(x)
  {
    Int32Steps(x);
    Int32Steps(x + 0x1_0000_0000 * k);
    assert (x + 0x1_0000_0000 * k + 0x8000_0000) / 0x1_0000_0000 == (x + 0x8000_0000) / 0x1_0000_0000 + k;
  }

  /** Adding d to an int and taking it away again, both wrapping, gives the int back. */
  lemma AddThenSubtract(a: int, d: int, sum: int)
    requires InInt32(a) && sum == Int32(a + d)
    ensures Int32(sum - d) == a
  {
    var q := (a + d + 0x8000_0000) / 0x1_0000_0000;
    Int32Steps(a + d);
    assert sum - d == a + 0x1_0000_0000 * -q;
    Int32Shift(a, -q);
  }

  /** Taking d away from an int and adding it again, both wrapping, gives the int back. */
  lemma SubtractThenAdd(a: int, d: int, difference: int)
    requires InInt32(a) && difference == Int32(a - d)
    ensures Int32(difference + d) == a
  {
    AddThenSubtract(a, -d, difference);
  }

  /** The wrapped difference of two wrapped values is the wrapped difference w of the values. */
  lemma WrappedDifference(u: int, v: int, w: int, wrappedU: int, wrappedV: int)
    requires wrappedU == Int32(u) && wrappedV == Int32(v) && u - v == w
    ensures Int32(wrappedU - wrappedV) == Int32(w)
  {
    var qu, qv := (u + 0x8000_0000) / 0x1_0000_0000, (v + 0x8000_0000) / 0x1_0000_0000;
    Int32Steps(u);
    Int32Steps(v);
    assert wrappedU - wrappedV == w + 0x1_0000_0000 * (qv - qu);
    Int32Shift(w, qv - qu);
  }
}

/**
 * Bitwise operators on non-negative integers.
 *
 * The chunk code packs block coordinates into an unsigned index with
 * `&`, `|`, `<<` and `>>`.  For unsigned operands C++ defines `a << k` as
 * a * 2^k and `a >> k` as the integral part of a / 2^k; `&` and `|` act
 * bit by bit.  They are defined here on `nat` so that the packing can be
 * related to plain arithmetic by proof rather than by assumption.
 */
module Bits {

  function Pow2(k: nat): (r: nat)
    ensures r >= 1
  {
    if k == 0 then 1 else 2 * Pow2(k - 1)
  }

  /** `a << k` on an unsigned value that does not overflow. */
  function ShiftLeft(a: nat, k: nat): nat
  {
    a * Pow2(k)
  }

  /** `a >> k` on an unsigned value: k halvings, each dropping the lowest bit. */
  function ShiftRight(a: nat, k: nat): nat
  {
    if k == 0 then a else ShiftRight(a / 2, k - 1)
  }

  /** Shifting right by k is the integral part of a / 2^k, as C++ defines it. */
  lemma {:induction false} ShiftRightDivides(a: nat, k: nat)
    ensures ShiftRight(a, k) == a / Pow2(k)
  {
    if k > 0 {
      ShiftRightDivides(a / 2, k - 1);
      DivDiv(a, 2, Pow2(k - 1));
    }
  }

  /** Bitwise AND: the lowest bit is the AND of the lowest bits, the rest recurse. */
  function BitAnd(a: nat, b: nat): nat
    decreases a + b
  {
    if a == 0 && b == 0 then 0
    else 2 * BitAnd(a / 2, b / 2) + (if a % 2 == 1 && b % 2 == 1 then 1 else 0)
  }

  /** Bitwise OR, bit by bit like `BitAnd`. */
  function BitOr(a: nat, b: nat): nat
    decreases a + b
  {
    if a == 0 && b == 0 then 0
    else 2 * BitOr(a / 2, b / 2) + (if a % 2 == 1 || b % 2 == 1 then 1 else 0)
  }

  /** Quotient and remainder are determined by any decomposition a == d*q + r with 0 <= r < d. */
  lemma DivModUnique(a: int, d: int, q: int, r: int)
    requires d > 0 && 0 <= r < d && a == d * q + r
    ensures a / d == q && a % d == r
  {
    var k := q - a / d;
    assert d * k == a % d - r by {
      assert d * k == d * q - d * (a / d);
    }
  }

  /** Splitting off the lowest bit of a remainder by an even modulus. */
  lemma ModDouble(a: nat, p: nat)
    requires p >= 1
    ensures a % (2 * p) == 2 * ((a / 2) % p) + a % 2
  {
    var q := a / 2;
    var u := q / p;
    var v := q % p;
    assert a == (2 * p) * u + (2 * v + a % 2) by {
      assert q == p * u + v;
      assert a == 2 * q + a % 2;
    }
    DivModUnique(a, 2 * p, u, 2 * v + a % 2);
  }

  /** Masking with 2^k - 1 keeps the k lowest bits: the remainder by 2^k. */
  lemma {:induction false} AndLowMask(a: nat, k: nat)
    ensures BitAnd(a, Pow2(k) - 1) == a % Pow2(k)
  {
    if k == 0 {
      BitAndZero(a);
    } else {
      var m := Pow2(k) - 1;
      assert m / 2 == Pow2(k - 1) - 1 && m % 2 == 1;
      AndLowMask(a / 2, k - 1);
      ModDouble(a, Pow2(k - 1));
    }
  }

  lemma {:induction false} BitAndZero(a: nat)
    ensures BitAnd(a, 0) == 0
  {
    if a != 0 {
      BitAndZero(a / 2);
    }
  }

  lemma {:induction false} BitOrZero(a: nat)
    ensures BitOr(a, 0) == a && BitOr(0, a) == a
  {
    if a != 0 {
      BitOrZero(a / 2);
    }
  }

  /**
   * OR-ing a value below 2^k into a value shifted left by k is addition:
   * the two operands occupy disjoint bits.  Stated for both operand orders.
   */
  lemma {:induction false} OrDisjoint(a: nat, b: nat, k: nat)
    requires b < Pow2(k)
    ensures BitOr(ShiftLeft(a, k), b) == ShiftLeft(a, k) + b
    ensures BitOr(b, ShiftLeft(a, k)) == ShiftLeft(a, k) + b
  {
    if k == 0 {
      assert b == 0;
      BitOrZero(a);
    } else {
      var x := ShiftLeft(a, k);
      assert x == 2 * (a * Pow2(k - 1));
      assert x / 2 == ShiftLeft(a, k - 1) && x % 2 == 0;
      OrDisjoint(a, b / 2, k - 1);
      if x == 0 && b == 0 {
      } else {
        assert BitOr(x, b) == 2 * BitOr(x / 2, b / 2) + b % 2;
        assert BitOr(b, x) == 2 * BitOr(b / 2, x / 2) + b % 2;
      }
    }
  }

  /** Shifting right twice is shifting right by the sum. */
  lemma {:induction false} ShiftRightTwice(a: nat, j: nat, k: nat)
    ensures ShiftRight(ShiftRight(a, j), k) == ShiftRight(a, j + k)
  {
    if j > 0 {
      ShiftRightTwice(a / 2, j - 1, k);
    }
  }

  lemma DivDiv(a: nat, p: nat, q: nat)
    requires p >= 1 && q >= 1
    ensures (a / p) / q == a / (p * q)
  {
    var s := a / p;
    var r := a % p;
    var t := s / q;
    var u := s % q;
    assert a == p * s + r;
    assert p * s == (p * q) * t + p * u by {
      assert s == q * t + u;
      MulDistrib(p, q * t, u);
    }
    assert p * u + r < p * q by {
      assert u <= q - 1;
      MulMono(p, u, q - 1);
      MulDistrib(p, q - 1, 1);
    }
    assert 0 <= p * u;
    DivModUnique(a, p * q, t, p * u + r);
  }

  lemma MulDistrib(p: int, a: int, b: int)
    ensures p * (a + b) == p * a + p * b
  {
  }

  lemma MulMono(p: nat, a: int, b: int)
    requires a <= b
    ensures p * a <= p * b
  {
  }
}

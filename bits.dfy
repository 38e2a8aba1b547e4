/** Python's bit operators on non-negative integers (`<<`, `|`, `&`), defined on
    unbounded naturals, and the facts about them that the register code relies on. */
module Bits {

  /** One register byte as the bus returns it. */
  type byte = x: int | 0 <= x < 0x100

  /** A 16-bit register pair before sign decoding. */
  type u16 = x: int | 0 <= x < 0x1_0000

  /** 2 to the power n. */
  function Pow2(n: nat): (r: nat)
    ensures r >= 1
  {
    if n == 0 then 1 else 2 * Pow2(n - 1)
  }

  /** `v << k`: k doublings of v. Shifting never makes a value smaller, and shifts
      zero exactly to zero. */
  function ShiftLeft(v: nat, k: nat): (r: nat)
    ensures v <= r
    ensures r == 0 <==> v == 0
  {
    if k == 0 then v else 2 * ShiftLeft(v, k - 1)
  }

  /** `a | b`, bit by bit from the least significant end. */
  function Or(a: nat, b: nat): (r: nat)
    decreases a + b
  {
    if a == 0 then b
    else if b == 0 then a
    else 2 * Or(a / 2, b / 2) + (if a % 2 == 1 || b % 2 == 1 then 1 else 0)
  }

  /** `a & b`, bit by bit from the least significant end. The result keeps only
      bits common to both operands, so it is at most each of them. */
  function And(a: nat, b: nat): (r: nat)
    ensures r <= a && r <= b
    decreases a + b
  {
    if a == 0 || b == 0 then 0
    else 2 * And(a / 2, b / 2) + (if a % 2 == 1 && b % 2 == 1 then 1 else 0)
  }

  /** Bit k of v (0 or 1). */
  function Bit(v: nat, k: nat): (r: nat)
    ensures r <= 1
  {
    if k == 0 then v % 2 else Bit(v / 2, k - 1)
  }

  /** The powers of two that the 8- and 16-bit registers use. */
  lemma Pow2Values()
    ensures Pow2(3) == 8 && Pow2(4) == 16 && Pow2(8) == 0x100
    ensures Pow2(15) == 0x8000 && Pow2(16) == 0x1_0000
  {
    assert Pow2(4) == 16;
    assert Pow2(8) == 256;
    assert Pow2(12) == 4096;
  }

  lemma MulBounds(k: int, p: int)
    requires p > 0
    ensures k >= 1 ==> k * p >= p
    ensures k <= -1 ==> k * p <= -p
  {
    if k >= 1 {
      assert k * p == (k - 1) * p + p;
      assert (k - 1) * p >= 0;
    }
    if k <= -1 {
      assert k * p == (k + 1) * p - p;
      assert (k + 1) * p <= 0;
    }
  }

  /** Euclidean quotient and remainder are fixed by a == q * p + r with 0 <= r < p. */
  lemma DivModUnique(a: int, p: int, q: int, r: int)
    requires p > 0 && 0 <= r < p && a == q * p + r
    ensures a / p == q && a % p == r
  {
    var q0, r0 := a / p, a % p;
    assert a == q0 * p + r0;
    assert (q - q0) * p == r0 - r;
    MulBounds(q - q0, p);
  }

  lemma MulDouble(x: int, y: int)
    ensures x * (2 * y) == 2 * (x * y)
  {
  }

  /** Shifting left by k multiplies by 2^k. */
  lemma {:induction false} ShiftLeftIsMul(v: nat, k: nat)
    ensures ShiftLeft(v, k) == v * Pow2(k)
  {
    if k > 0 {
      ShiftLeftIsMul(v, k - 1);
      MulDouble(v, Pow2(k - 1));
    }
  }

  /** One bit of OR on two values whose low `k` bits hold l1 and l2: given the
      result for the values halved, the result for the values themselves. */
  lemma OrSplitStep(k: nat, h1: nat, l1: nat, h2: nat, l2: nat)
    requires k > 0 && l1 < Pow2(k) && l2 < Pow2(k)
    requires ShiftLeft(h1, k) + l1 != 0 && ShiftLeft(h2, k) + l2 != 0
    requires Or(ShiftLeft(h1, k - 1) + l1 / 2, ShiftLeft(h2, k - 1) + l2 / 2)
          == ShiftLeft(Or(h1, h2), k - 1) + Or(l1 / 2, l2 / 2)
    ensures Or(ShiftLeft(h1, k) + l1, ShiftLeft(h2, k) + l2) == ShiftLeft(Or(h1, h2), k) + Or(l1, l2)
  {
    var a, b := ShiftLeft(h1, k) + l1, ShiftLeft(h2, k) + l2;
    assert a / 2 == ShiftLeft(h1, k - 1) + l1 / 2 && a % 2 == l1 % 2;
    assert b / 2 == ShiftLeft(h2, k - 1) + l2 / 2 && b % 2 == l2 % 2;
    var lowBit := if l1 % 2 == 1 || l2 % 2 == 1 then 1 else 0;
    assert Or(a, b) == 2 * Or(a / 2, b / 2) + lowBit;
    assert 2 * Or(l1 / 2, l2 / 2) + lowBit == Or(l1, l2) by {
      if l1 == 0 {
        assert Or(l1 / 2, l2 / 2) == l2 / 2;
      } else if l2 == 0 {
        assert Or(l1 / 2, l2 / 2) == l1 / 2;
      }
    }
  }

  /** OR works field by field: the bits at or above position k and the bits below it
      are combined separately. */
  lemma {:induction false} OrSplit(k: nat, h1: nat, l1: nat, h2: nat, l2: nat)
    requires l1 < Pow2(k) && l2 < Pow2(k)
    ensures Or(ShiftLeft(h1, k) + l1, ShiftLeft(h2, k) + l2) == ShiftLeft(Or(h1, h2), k) + Or(l1, l2)
  {
    if k == 0 {
      assert l1 == 0 && l2 == 0;
    } else if ShiftLeft(h1, k) + l1 == 0 {
      assert h1 == 0 && l1 == 0;
    } else if ShiftLeft(h2, k) + l2 == 0 {
      assert h2 == 0 && l2 == 0;
    } else {
      OrSplit(k - 1, h1, l1 / 2, h2, l2 / 2);
      OrSplitStep(k, h1, l1, h2, l2);
    }
  }

  /** ORing a value shifted past the width of another is plain addition: the two
      fields do not overlap. */
  lemma OrDisjoint(high: nat, k: nat, low: nat)
    requires low < Pow2(k)
    ensures Or(ShiftLeft(high, k), low) == ShiftLeft(high, k) + low
  {
    OrSplit(k, high, 0, 0, low);
  }

  /** `v & (1 << k)` is 1 << k when bit k of v is set and 0 otherwise. */
  lemma {:induction false} AndSingleBit(v: nat, k: nat)
    ensures And(v, ShiftLeft(1, k)) == if Bit(v, k) == 1 then ShiftLeft(1, k) else 0
  {
    if k == 0 {
      if v != 0 {
        assert And(v, 1) == 2 * And(v / 2, 0) + (if v % 2 == 1 then 1 else 0);
      }
    } else {
      AndSingleBit(v / 2, k - 1);
      var s := ShiftLeft(1, k - 1);
      if v != 0 {
        assert And(v, 2 * s) == 2 * And(v / 2, s);
      }
    }
  }

  /** For a pattern of `width` bits, the top bit is set exactly in the upper half of
      the unsigned range. */
  lemma {:induction false} TopBitIsUpperHalf(v: nat, width: nat)
    requires 1 <= width && v < Pow2(width)
    ensures Bit(v, width - 1) == 1 <==> v >= Pow2(width - 1)
  {
    if width > 1 {
      TopBitIsUpperHalf(v / 2, width - 1);
    }
  }
}

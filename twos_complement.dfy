/** Decoding of an unsigned bit pattern as a two's-complement signed integer. */
module TwosComplement {
  import opened Bits

  lemma ModOfResidue(a: int, p: int)
    requires 0 <= a < p
    ensures a % p == a
  {
  }

  lemma ModOfShiftedResidue(a: int, p: int)
    requires 0 <= a < p
    ensures (a - p) % p == a
  {
  }

  /** Subtracting the modulus leaves the residue unchanged. */
  lemma ModOfDifference(a: int, p: int)
    requires p > 0
    ensures (a - p) % p == a % p
  {
    DivModUnique(a - p, p, a / p - 1, a % p);
  }

  /** Reference definition: the signed integer that a `bits`-wide pattern v stands for,
      the unique value in [-2^(bits-1), 2^(bits-1)) congruent to v modulo 2^bits. */
  function Signed(v: nat, bits: nat): (r: int)
    requires 1 <= bits && v < Pow2(bits)
    ensures -(Pow2(bits - 1) as int) <= r < Pow2(bits - 1)
    ensures r % Pow2(bits) == v
  {
    var p := Pow2(bits);
    if v < Pow2(bits - 1) then
      ModOfResidue(v, p);
      v
    else
      ModOfShiftedResidue(v, p);
      v - p
  }

  /** The inverse of Signed: the `bits`-wide pattern that stores the signed value s. */
  function Unsigned(s: int, bits: nat): (v: nat)
    ensures v < Pow2(bits)
  {
    s % Pow2(bits)
  }

  /** Storing an in-range signed value and decoding the pattern gives the value back. */
  lemma SignedUnsigned(s: int, bits: nat)
    requires 1 <= bits && -(Pow2(bits - 1) as int) <= s < Pow2(bits - 1)
    ensures Signed(Unsigned(s, bits), bits) == s
  {
    var p := Pow2(bits - 1);
    assert Pow2(bits) == 2 * p;
    if s >= 0 {
      ModOfResidue(s, 2 * p);
    } else {
      ModOfShiftedResidue(s + 2 * p, 2 * p);
    }
  }

  /** Re-encoding a decoded value modulo 2^bits and decoding it again changes nothing. */
  lemma SignedIdempotent(v: nat, bits: nat)
    requires 1 <= bits && v < Pow2(bits)
    ensures Signed(Unsigned(Signed(v, bits), bits), bits) == Signed(v, bits)
  {
    SignedUnsigned(Signed(v, bits), bits);
  }

  /** The driver's decoder: keep the value, and subtract 1 << bits when
      `value & (1 << (bits - 1))` is non-zero. The input is not masked, so for a
      value wider than `bits` only bit `bits - 1` is tested: the result is still
      congruent to the input but may lie outside the signed range. */
  method Decode(value: nat, bits: nat) returns (r: int)
    requires bits >= 1
    ensures r == if Bit(value, bits - 1) == 1 then value - Pow2(bits) else value
    ensures r % Pow2(bits) == value % Pow2(bits)
    ensures value < Pow2(bits) ==> r == Signed(value, bits)
  {
    r := value;
    if And(value, ShiftLeft(1, bits - 1)) != 0 {
      r := r - ShiftLeft(1, bits);
    }
    ShiftLeftIsMul(1, bits);
    ShiftLeftIsMul(1, bits - 1);
    AndSingleBit(value, bits - 1);
    ModOfDifference(value, Pow2(bits));
    if value < Pow2(bits) {
      TopBitIsUpperHalf(value, bits);
    }
  }

  /** A 16-bit register pair read as a signed count. */
  function Signed16(raw: u16): (r: int)
    ensures -0x8000 <= r <= 0x7FFF
    ensures raw < 0x8000 ==> r == raw
    ensures raw >= 0x8000 ==> r == raw - 0x1_0000
  {
    Pow2Values();
    Signed(raw, 16)
  }

  /** The signed count a 16-bit pattern decodes to determines the pattern. */
  lemma Signed16Injective(a: u16, b: u16)
    ensures Signed16(a) == Signed16(b) ==> a == b
  {
  }

  /** The 16-bit pattern that stores the signed count s. */
  function Unsigned16(s: int): (raw: u16)
    requires -0x8000 <= s <= 0x7FFF
    ensures Signed16(raw) == s
  {
    Pow2Values();
    SignedUnsigned(s, 16);
    Unsigned(s, 16)
  }

  lemma Signed16Samples()
    ensures Signed16(0x0000) == 0
    ensures Signed16(0x7FFF) == 32767
    ensures Signed16(0x8000) == -32768
    ensures Signed16(0xFFFF) == -1
  {
  }
}

/** Conversion of raw register pairs to physical units: degrees Celsius for the
    temperature sensor, g for the three acceleration axes. Exact real arithmetic. */
module Conversion {
  import opened Bits
  import opened TwosComplement
  import opened Config
  import Sample

  /** The temperature pair is an 8.8 fixed-point offset from 25 degrees Celsius. */
  function Temperature(raw: u16): (celsius: real)
    ensures -103.0 <= celsius < 153.0
    ensures celsius == 25.0 <==> Signed16(raw) == 0
  {
    Signed16(raw) as real / 256.0 + 25.0
  }

  /** Divisor for the configured mode. */
  function ModeFactor(m: Mode): (f: int)
    ensures f == 16 || f == 64 || f == 256
  {
    ModeTablesComplete(m);
    ACCELERATION_MODE_FACTORS[m]
  }

  /** mg per count for the configured range and mode. */
  function MilliGPerCount(g: FullScale, m: Mode): (f: real)
    ensures 0.98 <= f <= 188.68
  {
    TablesComplete(g, m);
    ACCELERATION_FACTORS[g][m]
  }

  /** An acceleration pair in g: the signed value is divided by the mode factor, scaled
      by the mg-per-count factor of the range and mode, and brought from mg to g. */
  function Acceleration(raw: u16, c: Config): (a: real)
    ensures a == Signed16(raw) as real * Sensitivity(c)
  {
    var count := Signed16(raw);
    AccelerationOfCount(count, c)
  }

  /** The acceleration in g of a signed value: linear in the value, with the
      positive per-configuration factor `Sensitivity`. */
  function AccelerationOfCount(count: int, c: Config): (a: real)
    ensures a == count as real * Sensitivity(c)
  {
    RealScale(count as real, ModeFactor(c.mode) as real, MilliGPerCount(c.range, c.mode), Sensitivity(c));
    (count as real / ModeFactor(c.mode) as real) * MilliGPerCount(c.range, c.mode) / 1000.0
  }

  /** g per unit of the signed value. */
  function Sensitivity(c: Config): (s: real)
    ensures s > 0.0
  {
    MilliGPerCount(c.range, c.mode) / (ModeFactor(c.mode) as real * 1000.0)
  }

  /** Raw 0x0000 reads 25 degrees and raw 0x0100 (one whole degree) reads 26. */
  lemma TemperatureSamples()
    ensures Temperature(Sample.Assemble(0x00, 0x00)) == 25.0
    ensures Temperature(Sample.Assemble(0x00, 0x01)) == 26.0
    ensures Temperature(0xFF00) == 24.0
  {
    assert Sample.Assemble(0x00, 0x01) == 0x0100;
  }

  /** Temperature is strictly increasing in the signed value, so it orders readings
      exactly as their signed values do. */
  lemma TemperatureOrder(a: u16, b: u16)
    ensures Temperature(a) < Temperature(b) <==> Signed16(a) < Signed16(b)
  {
  }

  /** Distinct raw pairs give distinct temperatures. */
  lemma TemperatureInjective(a: u16, b: u16)
    ensures Temperature(a) == Temperature(b) ==> a == b
  {
    Signed16Injective(a, b);
  }

  lemma RealScale(x: real, f: real, m: real, k: real)
    requires f > 0.0 && k == m / (f * 1000.0)
    ensures (x / f) * m / 1000.0 == x * k
  {
    calc {
      (x / f) * m / 1000.0;
      (x * m) / (f * 1000.0);
      x * (m / (f * 1000.0));
    }
  }

  lemma MulStrict(x: real, y: real, k: real, xk: real, yk: real)
    requires k > 0.0 && x < y && xk == x * k && yk == y * k
    ensures xk < yk
  {
    assert yk - xk == (y - x) * k;
  }

  /** A zero reading is zero g, and only a zero reading is. */
  lemma AccelerationZero(raw: u16, c: Config)
    ensures Acceleration(raw, c) == 0.0 <==> Signed16(raw) == 0
    ensures Acceleration(0x0000, c) == 0.0
  {
  }

  /** Negating the signed value negates the acceleration. The pattern 0x8000 is the
      one value whose negation has no 16-bit pattern. */
  lemma AccelerationNegation(raw: u16, c: Config)
    requires raw != 0x8000
    ensures Acceleration(Unsigned16(-Signed16(raw)), c) == -Acceleration(raw, c)
  {
  }

  /** A larger signed value reads a larger acceleration. */
  lemma CountMonotone(n1: int, n2: int, c: Config)
    requires n1 < n2
    ensures AccelerationOfCount(n1, c) < AccelerationOfCount(n2, c)
  {
    MulStrict(n1 as real, n2 as real, Sensitivity(c), AccelerationOfCount(n1, c), AccelerationOfCount(n2, c));
  }

  /** Acceleration orders readings exactly as their signed values do. */
  lemma AccelerationOrder(a: u16, b: u16, c: Config)
    ensures Acceleration(a, c) < Acceleration(b, c) <==> Signed16(a) < Signed16(b)
  {
    if Signed16(a) < Signed16(b) {
      CountMonotone(Signed16(a), Signed16(b), c);
    } else if Signed16(b) < Signed16(a) {
      CountMonotone(Signed16(b), Signed16(a), c);
    }
  }

  /** A signed value of one mode factor reads exactly the table's mg-per-count value,
      in g. */
  lemma AccelerationOneCount(c: Config)
    ensures Acceleration(Unsigned16(ModeFactor(c.mode)), c) == MilliGPerCount(c.range, c.mode) / 1000.0
  {
  }

  /** In the 2 g range and normal mode a signed value of 64 reads 3.91 mg. */
  lemma AccelerationSample(odr: Odr)
    ensures Acceleration(64, Config(odr, 2, Normal)) == 3.91 / 1000.0
  {
  }

  /** The driver's temperature conversion, decoding the pair with its own
      two's-complement routine. */
  method ConvertTemperature(raw: u16) returns (celsius: real)
    ensures celsius == Temperature(raw)
  {
    Pow2Values();
    var count := Decode(raw, 16);
    celsius := count as real / 256.0 + 25.0;
  }

  /** The driver's acceleration conversion, decoding the pair with its own
      two's-complement routine and looking the factors up in the tables. */
  method ConvertAcceleration(raw: u16, c: Config) returns (g: real)
    ensures g == Acceleration(raw, c)
  {
    Pow2Values();
    var count := Decode(raw, 16);
    TablesComplete(c.range, c.mode);
    g := (count as real / ACCELERATION_MODE_FACTORS[c.mode] as real) * ACCELERATION_FACTORS[c.range][c.mode] / 1000.0;
  }
}

/** The CTRL_REG1 and CTRL_REG4 images the driver writes, built by OR-ing bit fields
    onto a base value, and the field layout of the two registers. */
module ControlRegisters {
  import opened Bits
  import opened Config

  /** CTRL_REG1: ODR (bits 7-4), LPen (bit 3), Zen, Yen, Xen (bits 2, 1, 0). */
  datatype Ctrl1 = Ctrl1(odr: Odr, lpen: bool, zen: bool, yen: bool, xen: bool)

  /** CTRL_REG4: BDU (bit 7), BLE (bit 6), FS (bits 5-4), HR (bit 3), ST (bits 2-1),
      SIM (bit 0). */
  datatype Ctrl4 = Ctrl4(bdu: bool, ble: bool, fs: TwoBits, hr: bool, st: TwoBits, sim: bool)

  /** A two-bit field. */
  type TwoBits = x: int | 0 <= x < 4

  /** 1 for a set flag, 0 for a clear one. */
  function Flag(b: bool): (bit: int)
  {
    if b then 1 else 0
  }

  /** The fields of a CTRL_REG1 value, read from the least significant bit up. */
  function Ctrl1Fields(v: byte): (f: Ctrl1)
  {
    var v1 := v / 2;
    var v2 := v1 / 2;
    var v3 := v2 / 2;
    Ctrl1(v3 / 2, v3 % 2 == 1, v2 % 2 == 1, v1 % 2 == 1, v % 2 == 1)
  }

  /** The CTRL_REG1 value holding the given fields. The fields do not overlap: each
      reads back as it was written. */
  function Ctrl1Image(f: Ctrl1): (v: byte)
    ensures Ctrl1Fields(v) == f
  {
    (((f.odr * 2 + Flag(f.lpen)) * 2 + Flag(f.zen)) * 2 + Flag(f.yen)) * 2 + Flag(f.xen)
  }

  /** The fields cover the whole register: a value is the image of its own fields. */
  lemma Ctrl1Complete(v: byte)
    ensures Ctrl1Image(Ctrl1Fields(v)) == v
  {
  }

  /** The fields of a CTRL_REG4 value: BDU, BLE and FS in the high nibble, HR, ST
      and SIM in the low one. */
  function Ctrl4Fields(v: byte): (f: Ctrl4)
  {
    var high, low := v / 16, v % 16;
    Ctrl4(high / 8 == 1, (high / 4) % 2 == 1, high % 4, low / 8 == 1, (low / 2) % 4, low % 2 == 1)
  }

  /** The CTRL_REG4 value holding the given fields. The fields do not overlap: each
      reads back as it was written. */
  function Ctrl4Image(f: Ctrl4): (v: byte)
    ensures Ctrl4Fields(v) == f
  {
    var high := Flag(f.bdu) * 8 + Flag(f.ble) * 4 + f.fs;
    var low := Flag(f.hr) * 8 + f.st * 2 + Flag(f.sim);
    DivModUnique(high * 16 + low, 16, high, low);
    high * 16 + low
  }

  /** The fields cover the whole register: a value is the image of its own fields. */
  lemma Ctrl4Complete(v: byte)
    ensures Ctrl4Image(Ctrl4Fields(v)) == v
  {
    var high, low := v / 16, v % 16;
    assert high == (high / 8) * 8 + ((high / 4) % 2) * 4 + high % 4;
    assert low == (low / 8) * 8 + ((low / 2) % 4) * 2 + low % 2;
  }

  /** What the driver puts in CTRL_REG1: all three axes on, the configured data
      rate, and low-power mode exactly when that is the configured mode. */
  function Ctrl1For(c: Config): (f: Ctrl1)
  {
    Ctrl1(c.odr, c.mode == LowPower, true, true, true)
  }

  /** What the driver puts in CTRL_REG4: block data update on, little-endian pairs,
      the range's FS code, high-resolution mode exactly when that is the configured
      mode, self-test off, four-wire interface. */
  function Ctrl4For(c: Config): (f: Ctrl4)
  {
    TablesComplete(c.range, c.mode);
    Ctrl4(true, false, FS_BITS[c.range], c.mode == HighResolution, 0, false)
  }

  /** `0b0000_0111 | (odr << 4)` places the ODR code above the axis-enable bits. */
  lemma OrOdrField(odr: Odr)
    ensures Or(0x07, ShiftLeft(odr, 4)) == odr * 16 + 0x07
  {
    Pow2Values();
    OrSplit(4, 0, 0x07, odr, 0);
    ShiftLeftIsMul(odr, 4);
  }

  /** ORing `1 << 3` into a value whose bit 3 is clear adds 8. */
  lemma OrBit3(high: nat, low: nat)
    requires low < 8
    ensures Or(high * 16 + low, ShiftLeft(1, 3)) == high * 16 + 8 + low
  {
    Pow2Values();
    ShiftLeftIsMul(2 * high, 3);
    assert ShiftLeft(2 * high, 3) + low == high * 16 + low;
    OrSplit(3, 2 * high, low, 1, 0);
    assert Or(2 * high, 1) == 2 * high + 1;
    ShiftLeftIsMul(2 * high + 1, 3);
  }

  /** `0b1000_0000 | (fs << 4)` places the FS code below the BDU bit. */
  lemma OrFsField(fs: TwoBits)
    ensures Or(0x80, ShiftLeft(fs, 4)) == (8 + fs) * 16
  {
    Pow2Values();
    OrSplit(4, 0x08, 0, fs, 0);
    OrDisjoint(1, 3, fs);
    ShiftLeftIsMul(0x08 + fs, 4);
  }

  /** Builds CTRL_REG1: start from the three axis-enable bits, OR in the ODR code
      shifted to bit 4, and OR in the LPen bit in low-power mode. */
  method BuildCtrlReg1(c: Config) returns (value: byte)
    ensures Ctrl1Fields(value) == Ctrl1For(c)
  {
    var v: nat := 0x07;
    v := Or(v, ShiftLeft(c.odr, 4));
    OrOdrField(c.odr);
    if c.mode == LowPower {
      v := Or(v, ShiftLeft(1, 3));
      OrBit3(c.odr, 0x07);
    }
    assert v == Ctrl1Image(Ctrl1For(c));
    value := v;
  }

  /** Builds CTRL_REG4: start from the BDU bit, OR in the FS code shifted to bit 4,
      and OR in the HR bit in high-resolution mode. */
  method BuildCtrlReg4(c: Config) returns (value: byte)
    ensures Ctrl4Fields(value) == Ctrl4For(c)
  {
    TablesComplete(c.range, c.mode);
    var fs: TwoBits := FS_BITS[c.range];
    var v: nat := 0x80;
    v := Or(v, ShiftLeft(fs, 4));
    OrFsField(fs);
    if c.mode == HighResolution {
      v := Or(v, ShiftLeft(1, 3));
      OrBit3(8 + fs, 0);
    }
    assert v == Ctrl4Image(Ctrl4For(c));
    value := v;
  }

  /** A single mode is configured, so LPen and HR are never both set. */
  lemma ModeBitsExclusive(c: Config)
    ensures !(Ctrl1For(c).lpen && Ctrl4For(c).hr)
    ensures c.mode == Normal <==> !Ctrl1For(c).lpen && !Ctrl4For(c).hr
  {
  }

  /** Range 8 g in high-resolution mode gives CTRL_REG4 = 0b1010_1000, whatever the
      data rate. */
  lemma Ctrl4Sample(odr: Odr, v: byte)
    requires Ctrl4Fields(v) == Ctrl4For(Config(odr, 8, HighResolution))
    ensures v == 0xA8
  {
    Ctrl4Complete(v);
  }

  /** The driver's own configuration gives CTRL_REG1 = 0b1001_0111 and
      CTRL_REG4 = 0b1000_0000. */
  lemma DriverImages(v1: byte, v4: byte)
    requires Ctrl1Fields(v1) == Ctrl1For(DRIVER_CONFIG)
    requires Ctrl4Fields(v4) == Ctrl4For(DRIVER_CONFIG)
    ensures v1 == 0x97 && v4 == 0x80
  {
    Ctrl1Complete(v1);
    Ctrl4Complete(v4);
  }
}

/** Assembly of a 16-bit sample from the two bytes of a register pair. The byte at
    the lower register address is the least significant one (CTRL_REG4.BLE = 0). */
module Sample {
  import opened Bits

  /** `(high << 8) | low`, where low was read from the pair's first register and
      high from the next. */
  function Assemble(low: byte, high: byte): (sample: u16)
    ensures LowByte(sample) == low
    ensures HighByte(sample) == high
  {
    Pow2Values();
    ShiftLeftIsMul(high, 8);
    OrDisjoint(high, 8, low);
    Or(ShiftLeft(high, 8), low)
  }

  /** The byte a sample stores at the lower register address. */
  function LowByte(sample: u16): (low: byte)
  {
    sample % 0x100
  }

  /** The byte a sample stores at the higher register address. */
  function HighByte(sample: u16): (high: byte)
  {
    sample / 0x100
  }

  /** Splitting a sample into its register bytes and assembling them gives it back. */
  lemma AssembleSplit(sample: u16)
    ensures Assemble(LowByte(sample), HighByte(sample)) == sample
  {
    var s := Assemble(LowByte(sample), HighByte(sample));
    assert s == (s / 0x100) * 0x100 + s % 0x100;
  }

  /** Swapping the two bytes changes the sample unless they are equal: the byte
      order of a register pair is not interchangeable. */
  lemma ByteOrderMatters(low: byte, high: byte)
    ensures Assemble(high, low) == Assemble(low, high) <==> low == high
  {
  }
}

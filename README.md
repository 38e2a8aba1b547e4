# IIS2DH accelerometer driver: conversion and configuration core

A Dafny model of the computational core of a small Python driver for the ST IIS2DH
three-axis accelerometer (with on-chip thermometer), attached to a two-wire serial bus.
The driver checks the device identity (WHO_AM_I), configures it through CTRL_REG1 and
CTRL_REG4, and then converts raw register pairs into degrees Celsius and g. The model
covers:

- the register map and the device identity value (`Registers`);
- Python's `<<`, `|` and `&` on non-negative integers, defined bit by bit on unbounded
  naturals, with the facts the driver relies on: OR of non-overlapping fields is
  addition, and AND with `1 << k` tests bit k (`Bits`);
- the driver's two's-complement decoder `twos_complement` as a method, proved against a
  reference definition of the signed value of a bit pattern and its inverse
  (`TwosComplement`);
- assembly of a 16-bit sample from the two bytes of a register pair, low address least
  significant (`Sample`);
- the operating configuration (data-rate code, range, mode) and the fixed tables: FS
  codes, mg-per-count factors per range and mode, and mode factors (`Config`);
- temperature and acceleration conversion over exact reals (`Conversion`);
- the CTRL_REG1 and CTRL_REG4 builders as methods that OR fields onto a base value,
  with field decoders and encoders for both registers (`ControlRegisters`);
- session start-up: the identity check gating the two configuration writes (`Session`).

The module globals `sensor_odr`, `sensor_range` and `sensor_mode` become a `Config`
value passed explicitly. Bus reads become parameters: the WHO_AM_I byte and the two
bytes of each register pair. The conversions use exact `real` arithmetic. Numeric
literals such as 3.91 are therefore exact, and there is no floating-point rounding.
`/` is Python 3's true division; under Python 2, `int / 256` would floor and the
temperature would come out in whole degrees.

`TwosComplement.Decode` does not mask its input, as in the script: for a value wider
than `bits` only bit `bits - 1` is tested, and the result may lie outside the signed
range. The model departs from the script in how settings are validated; see
`Config.ParseConfig` under "## Left out".

## Model

| member | source | states |
|---|---|---|
| `TwosComplement.Decode` | iis2dh_i2c.py:60-63 | for any width >= 1: the result is the input minus 2^bits when bit `bits - 1` of the input is set and the input itself otherwise, is congruent to the input modulo 2^bits, and for an input that fits in `bits` bits equals the reference signed value |
| `TwosComplement.Signed` | iis2dh_i2c.py:60-63 | the signed value of a `bits`-wide pattern lies in [-2^(bits-1), 2^(bits-1)) and reduces back to the pattern modulo 2^bits |
| `TwosComplement.Unsigned` | iis2dh_i2c.py:60-63 | the stored pattern of a signed value fits in `bits` bits |
| `TwosComplement.SignedUnsigned` | iis2dh_i2c.py:60-63 | storing an in-range signed value and decoding it gives the value back |
| `TwosComplement.SignedIdempotent` | iis2dh_i2c.py:60-63 | decoding, reducing modulo 2^bits and decoding again gives the same signed value |
| `TwosComplement.Signed16` | iis2dh_i2c.py:82 | a 16-bit pair decodes into [-32768, 32767]: unchanged below 0x8000, minus 65536 from 0x8000 up |
| `TwosComplement.Signed16Injective` | iis2dh_i2c.py:60-63 | distinct 16-bit patterns decode to distinct signed values |
| `TwosComplement.Unsigned16` | iis2dh_i2c.py:60-63 | every value in [-32768, 32767] is the decoding of some 16-bit pattern |
| `TwosComplement.Signed16Samples` | iis2dh_i2c.py:60-63 | 0x0000 -> 0, 0x7FFF -> 32767, 0x8000 -> -32768, 0xFFFF -> -1 |
| `Bits.AndSingleBit` | iis2dh_i2c.py:61 | `v & (1 << k)` is `1 << k` when bit k of v is set and 0 otherwise |
| `Bits.TopBitIsUpperHalf` | iis2dh_i2c.py:61 | for a pattern of `width` bits, the sign bit is set exactly when the pattern is at least 2^(width-1) |
| `Bits.OrSplit` | iis2dh_i2c.py:107 | OR combines the bits above position k and the bits below it separately |
| `Bits.OrDisjoint` | iis2dh_i2c.py:71 | ORing a value shifted left by k with a value below 2^k is their sum: the fields do not overlap |
| `Sample.Assemble` | iis2dh_i2c.py:71 | the sample's low byte (`LowByte`, mod 256) is the byte read from the lower address and its high byte (`HighByte`, div 256) the one read from the next address |
| `Sample.AssembleSplit` | iis2dh_i2c.py:71 | every 16-bit sample is the assembly of its own two bytes |
| `Sample.ByteOrderMatters` | iis2dh_i2c.py:70-71 | assembling the bytes in swapped order gives the same sample only when the two bytes are equal |
| `Config.ModeTablesComplete` | iis2dh_i2c.py:57 | every mode has a mode factor and a name |
| `Config.TablesComplete` | iis2dh_i2c.py:49-57 | every range in {2, 4, 8, 16} and every mode has an FS code, an mg-per-count factor and a mode factor; the range tables have exactly those keys |
| `Config.ModeName` | iis2dh_i2c.py:91 | each mode's name maps back to that mode |
| `Config.ParseConfig` | iis2dh_i2c.py:89-91 | the settings are accepted exactly when the ODR fits in 4 bits and the range and mode name are table keys; an accepted configuration carries those settings; an unknown range or mode is reported as such |
| `Config.ParseConfigRoundTrip` | iis2dh_i2c.py:89-91 | the settings of any configuration parse back to that configuration |
| `Config.DriverSettings` | iis2dh_i2c.py:89-91 | ODR 0b1001, range 2 and mode "normal" form a valid configuration |
| `Conversion.Temperature` | iis2dh_i2c.py:81-82 | the temperature lies in [-103, 153) degrees and is exactly 25 degrees when the signed value is 0 |
| `Conversion.TemperatureSamples` | iis2dh_i2c.py:81-82 | the pair 0x00, 0x00 reads 25 degrees; 0x00, 0x01 (raw 0x0100) reads 26; raw 0xFF00 reads 24 |
| `Conversion.TemperatureOrder` | iis2dh_i2c.py:81-82 | one temperature is below another exactly when its signed value is (strictly increasing) |
| `Conversion.TemperatureInjective` | iis2dh_i2c.py:81-82 | distinct raw pairs give distinct temperatures |
| `Conversion.ConvertTemperature` | iis2dh_i2c.py:81-82 | decoding with the driver's decoder, dividing by 256 and adding 25 gives `Temperature` |
| `Conversion.ModeFactor` | iis2dh_i2c.py:57 | the mode factor is one of 16, 64 and 256 |
| `Conversion.MilliGPerCount` | iis2dh_i2c.py:51-56 | every mg-per-count factor lies between 0.98 and 188.68 |
| `Conversion.Sensitivity` | iis2dh_i2c.py:84-85 | the g-per-unit factor of every configuration is positive |
| `Conversion.Acceleration` | iis2dh_i2c.py:84-85 | the acceleration of a register pair is its signed value times that positive factor |
| `Conversion.AccelerationOfCount` | iis2dh_i2c.py:85 | line 85's formula applied to a signed value equals the value times that positive factor |
| `Conversion.AccelerationZero` | iis2dh_i2c.py:84-85 | the acceleration is 0 g exactly when the signed value is 0; raw 0x0000 reads 0 g |
| `Conversion.AccelerationNegation` | iis2dh_i2c.py:84-85 | negating the signed value (any pattern but 0x8000) negates the acceleration |
| `Conversion.CountMonotone` | iis2dh_i2c.py:84-85 | a larger signed value reads a strictly larger acceleration |
| `Conversion.AccelerationOrder` | iis2dh_i2c.py:84-85 | acceleration readings are ordered exactly as their signed values |
| `Conversion.AccelerationOneCount` | iis2dh_i2c.py:84-85 | a signed value equal to the mode factor reads the table's mg-per-count value, in g |
| `Conversion.AccelerationSample` | iis2dh_i2c.py:52 | range 2, normal mode: a signed value of 64 reads exactly 3.91/1000 g |
| `Conversion.ConvertAcceleration` | iis2dh_i2c.py:84-85 | decoding with the driver's decoder and applying the table factors gives `Acceleration` |
| `ControlRegisters.Ctrl1Image` | iis2dh_i2c.py:106-109 | every field written into CTRL_REG1 (ODR, LPen, Zen, Yen, Xen) reads back unchanged: the fields do not overlap |
| `ControlRegisters.Ctrl1Complete` | iis2dh_i2c.py:106-109 | every CTRL_REG1 byte is the image of its own fields |
| `ControlRegisters.Ctrl4Image` | iis2dh_i2c.py:112-115 | every field written into CTRL_REG4 (BDU, BLE, FS, HR, ST, SIM) reads back unchanged |
| `ControlRegisters.Ctrl4Complete` | iis2dh_i2c.py:112-115 | every CTRL_REG4 byte is the image of its own fields |
| `ControlRegisters.OrOdrField` | iis2dh_i2c.py:106-107 | OR of 0b111 and `odr << 4` is odr * 16 + 7 |
| `ControlRegisters.OrBit3` | iis2dh_i2c.py:109 | ORing `1 << 3` into a value whose bit 3 is clear (16 * high + low with low < 8) adds 8 |
| `ControlRegisters.OrFsField` | iis2dh_i2c.py:112-113 | OR of 0b1000_0000 and `fs << 4` is 128 + fs * 16 |
| `ControlRegisters.BuildCtrlReg1` | iis2dh_i2c.py:106-109 | the CTRL_REG1 byte has X, Y and Z enabled, the ODR code in bits 7-4, and LPen set exactly in low-power mode |
| `ControlRegisters.BuildCtrlReg4` | iis2dh_i2c.py:112-115 | the CTRL_REG4 byte has BDU set, BLE clear, the range's FS code in bits 5-4, HR set exactly in high-resolution mode, and ST and SIM clear |
| `ControlRegisters.ModeBitsExclusive` | iis2dh_i2c.py:108-115 | LPen and HR are never both set; both are clear exactly in normal mode |
| `ControlRegisters.Ctrl4Sample` | iis2dh_i2c.py:112-115 | range 8 in high-resolution mode gives CTRL_REG4 = 0b1010_1000, whatever the data rate |
| `ControlRegisters.DriverImages` | iis2dh_i2c.py:106-116 | the driver's own configuration gives CTRL_REG1 = 0b1001_0111 and CTRL_REG4 = 0b1000_0000 |
| `Session.IsKnownDevice` | iis2dh_i2c.py:97 | the device is accepted exactly when WHO_AM_I reads 0x33 |
| `Session.Configure` | iis2dh_i2c.py:97-116 | the session fails, with nothing written, exactly when the device is not known (`IsKnownDevice`); otherwise it writes CTRL_REG1 then CTRL_REG4, each with the fields above |

## Left out

- SMBus transport (`smbus.SMBus(1)`, `read_value`, `write_value`): foreign I/O. Register
  bytes enter the model as parameters.
- The settle delay after each write and the one-second poll period (`time.sleep`):
  timing only.
- The two single-byte reads of `read_value_double`, a workaround for the bus: only the
  assembly of the two bytes is modelled (`Sample.Assemble`).
- `print_register`, the endless polling loop and its formatted output: presentation
  and I/O.
- `exit()` after an unknown WHO_AM_I is modelled as the `IdentityMismatch` error of
  `Session.Configure`.
- Session.Configure: the list of writes ends after CTRL_REG4. The constant TEMP_CFG_REG
  write (0b1100_0000) that follows it in the script carries no logic and is not modelled.
- Floating-point rounding of the Python conversions: the model computes exactly.
- The FIFO, interrupt, click and activity registers: they are declared in `Registers`
  but nothing uses them.
- Config.ParseConfig: validates the settings before anything is written, unlike the
  script. (1) A data-rate code outside 0..15 is refused; the script ORs `sensor_odr << 4`
  into CTRL_REG1 unchecked (line 107). (2) An unknown range is refused; the script has
  already written CTRL_REG1 (line 110) when the `IIS2DH_fs_bits` lookup raises `KeyError`
  (line 113). (3) An unknown mode string is refused; the script writes CTRL_REG1 and
  CTRL_REG4 as for normal mode and fails only at the table lookup in
  `convert_acceleration` (line 85). The model does not capture these partial writes.
- TwosComplement.Decode: requires `bits >= 1`. With `bits = 0` the Python shift count
  is negative and raises an error.

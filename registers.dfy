/** Register map of the IIS2DH accelerometer: bus address, register addresses
    and the identity value reported by WHO_AM_I. Pure constant data. */
module Registers {
  import opened Bits

  /** Seven-bit bus address of the device. */
  const SENSOR_I2C_ADDR: byte := 0x18

  const REG_STATUS_REG_AUX: byte := 0x07
  const REG_OUT_TEMP_L: byte := 0x0C
  const REG_OUT_TEMP_H: byte := 0x0D
  const REG_INT_COUNTER_REG: byte := 0x0E
  const REG_WHO_AM_I: byte := 0x0F
  const REG_TEMP_CFG_REG: byte := 0x1F
  const REG_CTRL_REG1: byte := 0x20
  const REG_CTRL_REG2: byte := 0x21
  const REG_CTRL_REG3: byte := 0x22
  const REG_CTRL_REG4: byte := 0x23
  const REG_CTRL_REG5: byte := 0x24
  const REG_CTRL_REG6: byte := 0x25
  const REG_REFERENCE_DATACAPTURE: byte := 0x26
  const REG_STATUS_REG: byte := 0x27
  const REG_OUT_X_L: byte := 0x28
  const REG_OUT_X_H: byte := 0x29
  const REG_OUT_Y_L: byte := 0x2A
  const REG_OUT_Y_H: byte := 0x2B
  const REG_OUT_Z_L: byte := 0x2C
  const REG_OUT_Z_H: byte := 0x2D
  const REG_FIFO_CTRL_REG: byte := 0x2E
  const REG_FIFO_SRC_REG: byte := 0x2F
  const REG_INT1_CFG: byte := 0x30
  const REG_INT1_SRC: byte := 0x31
  const REG_INT1_THS: byte := 0x32
  const REG_INT1_DURATION: byte := 0x33
  const REG_INT2_CFG: byte := 0x34
  const REG_INT2_SRC: byte := 0x35
  const REG_INT2_THS: byte := 0x36
  const REG_INT2_DURATION: byte := 0x37
  const REG_CLICK_CFG: byte := 0x38
  const REG_CLICK_SRC: byte := 0x39
  const REG_CLICK_THS: byte := 0x3A
  const REG_TIME_LIMIT: byte := 0x3B
  const REG_TIME_LATENCY: byte := 0x3C
  const REG_TIME_WINDOW: byte := 0x3D
  const REG_ACT_THS: byte := 0x3E
  const REG_ACT_DUR: byte := 0x3F

  /** The value WHO_AM_I reads back on a genuine IIS2DH. */
  const WHO_AM_I_VALUE: byte := 0x33  // 0b0011_0011
}

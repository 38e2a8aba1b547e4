/** Start-up of a session: the identity check, then the configuration writes. */
module Session {
  import opened Bits
  import opened Results
  import opened Registers
  import opened Config
  import opened ControlRegisters

  /** One byte written to one register. */
  datatype RegisterWrite = RegisterWrite(register: byte, value: byte)

  datatype SessionError = IdentityMismatch(whoAmI: byte)

  /** WHO_AM_I identifies an IIS2DH: the driver accepts the device exactly when the
      register reads 0x33. */
  predicate IsKnownDevice(whoAmI: byte): (known: bool)
    ensures known <==> whoAmI == 0x33
  {
    whoAmI == WHO_AM_I_VALUE
  }

  /** Checks the WHO_AM_I byte and, only for a known device, yields the CTRL_REG1 and
      CTRL_REG4 writes for the configuration, in the order they are issued. An
      unknown device stops the session before anything is written. */
  method Configure(whoAmI: byte, c: Config) returns (r: Result<seq<RegisterWrite>, SessionError>)
    ensures r.Err? <==> !IsKnownDevice(whoAmI)
    ensures r.Err? ==> r.error == IdentityMismatch(whoAmI)
    ensures r.Ok? ==> |r.value| == 2
    ensures r.Ok? ==> r.value[0].register == REG_CTRL_REG1 && Ctrl1Fields(r.value[0].value) == Ctrl1For(c)
    ensures r.Ok? ==> r.value[1].register == REG_CTRL_REG4 && Ctrl4Fields(r.value[1].value) == Ctrl4For(c)
  {
    if !IsKnownDevice(whoAmI) {
      return Err(IdentityMismatch(whoAmI));
    }
    var ctrl1 := BuildCtrlReg1(c);
    var ctrl4 := BuildCtrlReg4(c);
    r := Ok([RegisterWrite(REG_CTRL_REG1, ctrl1), RegisterWrite(REG_CTRL_REG4, ctrl4)]);
  }
}

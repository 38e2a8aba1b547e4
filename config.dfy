/** The operating configuration (output data rate, full-scale range, power mode) and
    the fixed tables indexed by it. */
module Config {
  import opened Results

  /** Power/resolution mode; exactly one is active. */
  datatype Mode = Normal | LowPower | HighResolution

  /** Full-scale range in g. */
  type FullScale = g: int | g == 2 || g == 4 || g == 8 || g == 16 witness 2

  /** The 4-bit output-data-rate code written to CTRL_REG1.ODR. */
  type Odr = x: int | 0 <= x < 16

  datatype Config = Config(odr: Odr, range: FullScale, mode: Mode)

  /** The names the driver uses for the modes. */
  const MODE_NAMES: map<string, Mode> := map["normal" := Normal, "lp" := LowPower, "hr" := HighResolution]

  /** CTRL_REG4.FS code for each full-scale range. */
  const FS_BITS: map<int, int> := map[2 := 0, 4 := 1, 8 := 2, 16 := 3]

  /** Sensitivity in mg per count, for each range and mode. */
  const ACCELERATION_FACTORS: map<int, map<Mode, real>> := map[
    2 := map[Normal := 3.91, LowPower := 15.63, HighResolution := 0.98],
    4 := map[Normal := 7.81, LowPower := 31.25, HighResolution := 1.95],
    8 := map[Normal := 15.63, LowPower := 62.50, HighResolution := 3.91],
    16 := map[Normal := 46.95, LowPower := 188.68, HighResolution := 11.72]
  ]

  /** Divisor that brings the left-justified output of each mode to counts. */
  const ACCELERATION_MODE_FACTORS: map<Mode, int> := map[Normal := 64, LowPower := 256, HighResolution := 16]

  /** The configuration the driver runs with. */
  const DRIVER_CONFIG: Config := Config(0x9, 2, Normal)

  datatype ConfigError =
    | UnknownRange(range: int)
    | UnknownMode(mode: string)
    | OdrOutOfRange(odr: int)

  /** Every mode has a mode factor and a name. */
  lemma ModeTablesComplete(m: Mode)
    ensures m in ACCELERATION_MODE_FACTORS && m in MODE_NAMES.Values
  {
    assert MODE_NAMES[ModeName(m)] == m;
  }

  /** Every range and every mode has an entry in every table, so no lookup of a
      configuration can fail; and the range tables have no other keys. */
  lemma TablesComplete(g: FullScale, m: Mode)
    ensures g in FS_BITS && g in ACCELERATION_FACTORS && m in ACCELERATION_FACTORS[g]
    ensures m in ACCELERATION_MODE_FACTORS && m in MODE_NAMES.Values
    ensures FS_BITS.Keys == ACCELERATION_FACTORS.Keys == {2, 4, 8, 16}
  {
    ModeTablesComplete(m);
  }

  /** The name of a mode. */
  function ModeName(m: Mode): (name: string)
    ensures name in MODE_NAMES && MODE_NAMES[name] == m
  {
    match m
    case Normal => "normal"
    case LowPower => "lp"
    case HighResolution => "hr"
  }

  /** Builds a configuration from the driver's settings, refusing any setting the
      tables or the 4-bit ODR field cannot hold. */
  function ParseConfig(odr: int, range: int, mode: string): (r: Result<Config, ConfigError>)
    ensures r.Ok? <==> 0 <= odr < 16 && range in FS_BITS && mode in MODE_NAMES
    ensures r.Ok? ==> r.value.odr == odr && r.value.range == range && ModeName(r.value.mode) == mode
    ensures range !in FS_BITS ==> r == Err(UnknownRange(range))
    ensures range in FS_BITS && mode !in MODE_NAMES ==> r == Err(UnknownMode(mode))
  {
    if range !in FS_BITS then Err(UnknownRange(range))
    else if mode !in MODE_NAMES then Err(UnknownMode(mode))
    else if !(0 <= odr < 16) then Err(OdrOutOfRange(odr))
    else
      assert ModeName(MODE_NAMES[mode]) == mode;
      Ok(Config(odr, range, MODE_NAMES[mode]))
  }

  /** Parsing the settings of a configuration gives that configuration back. */
  lemma ParseConfigRoundTrip(c: Config)
    ensures ParseConfig(c.odr, c.range, ModeName(c.mode)) == Ok(c)
  {
  }

  lemma DriverSettings()
    ensures ParseConfig(0x9, 2, "normal") == Ok(DRIVER_CONFIG)
  {
  }
}

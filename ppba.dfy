/** The Pegasus Pocket Power Box Advanced switch driver
    (`pegasus_alpaca_ppba`): a table of nineteen switches, the commands that
    drive the writable ones, and the status replies that refresh the
    readings. The serial link is not modelled: the line the box sends back
    for a command is a parameter of the method that sends it. */
module Ppba {
  import opened Wrappers
  import opened Text
  import opened Devices
  import OnStepResponses

  // The indices of `ppba_switches`.
  const InputVoltage: nat := 0
  const Current: nat := 1
  const Current12V: nat := 2
  const Power: nat := 3
  const Temp: nat := 4
  const Humidity: nat := 5
  const DewPoint: nat := 6
  const Quad12VOnOff: nat := 7
  const AdjPowOnOff: nat := 8
  const AdjVoltage: nat := 9
  const DewAPwm: nat := 10
  const DewBPwm: nat := 11
  const DewACurrent: nat := 12
  const DewBCurrent: nat := 13
  const AutodewOnOff: nat := 14
  const PowerWarn: nat := 15
  const UptimeMs: nat := 16
  const DewAggressiveness: nat := 17
  const Usb2OnOff: nat := 18

  /** `max_switch`: the number of switches. */
  const MaxSwitch: nat := 19

  /** The switches that only report a reading. */
  const Sensors: set<nat> :=
    {InputVoltage, Current, Current12V, Power, Temp, Humidity, DewPoint,
     PowerWarn, UptimeMs, DewACurrent, DewBCurrent}

  /** The switches a client may turn on and off. */
  const Controls: set<nat> :=
    {Quad12VOnOff, AdjPowOnOff, AdjVoltage, DewAPwm, DewBPwm, AutodewOnOff,
     DewAggressiveness, Usb2OnOff}

  /** The switches whose value a client may set: the controls and the two
      dew heater currents. */
  const Settable: set<nat> := Controls + {DewACurrent, DewBCurrent}

  /** The switches that `set_switch_value` and `switch_step` refuse as
      read-only. */
  const ValueReadOnly: set<nat> :=
    {InputVoltage, Current, Current12V, Power, Temp, Humidity, DewPoint, PowerWarn}

  /** The switches whose value is an on/off level 0 or 1. */
  const OnOff: set<nat> :=
    {Quad12VOnOff, AdjPowOnOff, DewACurrent, DewBCurrent, AutodewOnOff, Usb2OnOff}

  /** No switch is both a sensor and a control; the value setters' read-only
      list is the sensors without the uptime and the two dew heater
      currents, which are settable. */
  lemma SwitchTable()
    ensures Sensors !! Controls
    ensures ValueReadOnly == Sensors - {UptimeMs, DewACurrent, DewBCurrent}
    ensures Settable !! ValueReadOnly && UptimeMs !in Settable
  {
  }

  /** `can_write`. */
  function CanWrite(idx: nat): (r: Result<bool>)
    ensures r.Ok? <==> idx < MaxSwitch
    ensures r.Err? ==> r.error == InvalidValue
    ensures r.Ok? ==> (r.value <==> idx in Controls)
  {
    if idx == InputVoltage || idx == Current || idx == Current12V || idx == Power
      || idx == Temp || idx == Humidity || idx == DewPoint || idx == PowerWarn
      || idx == UptimeMs || idx == DewACurrent || idx == DewBCurrent
    then Ok(false)
    else if idx == Quad12VOnOff || idx == AdjPowOnOff || idx == AdjVoltage
      || idx == DewAPwm || idx == DewBPwm || idx == AutodewOnOff
      || idx == DewAggressiveness || idx == Usb2OnOff
    then Ok(true)
    else Err(InvalidValue)
  }

  /** The names `get_switch_name` gives, in index order. */
  const SwitchNames: seq<string> := [
    "Voltage",
    "Total Current",
    "Current 12V",
    "Power",
    "Temperature",
    "Humidity",
    "DewPoint",
    "Quad 12V Output",
    "Adj Power Output",
    "Adj Power Voltage",
    "DewA PWM",
    "DewB PWM",
    "DewA Power",
    "DewB Power",
    "Auto Dew",
    "Power Warning",
    "Uptime",
    "Autodew Aggressiveness",
    "USB2 Ports"
  ]

  /** `get_switch_name`: one name per index, in index order. */
  function SwitchName(idx: nat): (r: Result<string>)
    ensures r.Ok? <==> idx < MaxSwitch
    ensures r.Err? ==> r.error == InvalidValue
    ensures r.Ok? ==> |r.value| > 0 && r.value == SwitchNames[idx]
  {
    if idx < |SwitchNames| then Ok(SwitchNames[idx]) else Err(InvalidValue)
  }

  /** No two switches share a name. */
  lemma SwitchNamesDistinct(i: nat, j: nat)
    requires i < j < MaxSwitch
    ensures SwitchName(i).value != SwitchName(j).value
  {
  }

  /** The descriptions `get_switch_description` gives, in index order. */
  const SwitchDescriptions: seq<string> := [
    "Input Voltage",
    "Current in Amps",
    "Quad 12V Current in Amps",
    "Power in Watts",
    "Temperature in Celsius",
    "Humidity %",
    "Dew Point in Celsius",
    "Quad 12V Output On/Off",
    "Adjustable Power Output On/Off",
    "Adjustable Power Voltage (3/5/7/8/9/12)",
    "Dew Heater A PWM Set Point (0-255)",
    "Dew Heater B PWM Set Point (0-255)",
    "Dew Heater A Current in Amps",
    "Dew Heater B Current in Amps",
    "AutoDew (On/Off)",
    "Power Warning",
    "Minutes of Uptime",
    "Auto Dew Aggressiveness, a higher value sets higher power based on humidity (1-254)",
    "USB2 Ports (On/Off)"
  ]

  /** `get_switch_description`: one description per index, in index order. */
  function SwitchDescription(idx: nat): (r: Result<string>)
    ensures r.Ok? <==> idx < MaxSwitch
    ensures r.Err? ==> r.error == InvalidValue
    ensures r.Ok? ==> |r.value| > 0 && r.value == SwitchDescriptions[idx]
  {
    if idx < |SwitchDescriptions| then Ok(SwitchDescriptions[idx]) else Err(InvalidValue)
  }

  /** No two switches share a description. */
  lemma SwitchDescriptionsDistinct(i: nat, j: nat)
    requires i < j < MaxSwitch
    ensures SwitchDescription(i).value != SwitchDescription(j).value
  {
  }

  /** `min_switch_value`. */
  function MinSwitchValue(idx: nat): (r: Result<real>)
    ensures r.Ok? <==> idx < MaxSwitch
    ensures r.Err? ==> r.error == InvalidValue
  {
    if idx == Temp || idx == DewPoint then Ok(-40.0)
    else if idx == DewAggressiveness then Ok(1.0)
    else if idx < MaxSwitch then Ok(0.0)
    else Err(InvalidValue)
  }

  /** `max_switch_value`: never below the minimum. */
  function MaxSwitchValue(idx: nat): (r: Result<real>)
    ensures r.Ok? <==> idx < MaxSwitch
    ensures r.Err? ==> r.error == InvalidValue
    ensures r.Ok? ==> MinSwitchValue(idx).Ok? && MinSwitchValue(idx).value <= r.value
  {
    if idx == InputVoltage then Ok(15.0)
    else if idx == Current || idx == Current12V then Ok(10.0)
    else if idx == Power then Ok(120.0)
    else if idx == Temp then Ok(50.0)
    else if idx == Humidity then Ok(100.0)
    else if idx == DewPoint then Ok(50.0)
    else if idx == Quad12VOnOff || idx == AdjPowOnOff then Ok(1.0)
    else if idx == AdjVoltage then Ok(12.0)
    else if idx == DewAPwm || idx == DewBPwm then Ok(255.0)
    else if idx == DewACurrent || idx == DewBCurrent then Ok(60.0)
    else if idx == AutodewOnOff || idx == PowerWarn then Ok(1.0)
    else if idx == UptimeMs then Ok(9007199254740992.0)
    else if idx == DewAggressiveness then Ok(254.0)
    else if idx == Usb2OnOff then Ok(1.0)
    else Err(InvalidValue)
  }

  /** `switch_step`: 1 for every switch whose value can be set; the
      read-only list leaves out the uptime, which therefore gets the error
      of an unknown index. */
  function SwitchStep(idx: nat): (r: Result<real>)
    ensures r.Ok? <==> idx in Settable
    ensures r.Ok? ==> r.value == 1.0
    ensures r == Err(InvalidOperation) <==> idx in ValueReadOnly
    ensures r.Err? && idx !in ValueReadOnly ==> r.error == InvalidValue
  {
    if idx == InputVoltage || idx == Current || idx == Current12V || idx == Power
      || idx == Temp || idx == Humidity || idx == DewPoint || idx == PowerWarn
    then Err(InvalidOperation)
    else if idx == Quad12VOnOff || idx == AdjPowOnOff || idx == AdjVoltage
      || idx == DewAPwm || idx == DewBPwm || idx == DewACurrent || idx == DewBCurrent
      || idx == AutodewOnOff || idx == DewAggressiveness || idx == Usb2OnOff
    then Ok(1.0)
    else Err(InvalidValue)
  }

  /** The command pair that drives a settable switch: `P1` the quad 12V
      outputs, `P2` the adjustable output, `P3` and `P4` the dew heaters,
      `PD` the automatic dew control, `PU` the USB2 hub. */
  function Channel(idx: nat): (c: string)
    requires idx in Settable
    ensures |c| == 2 && c[0] == 'P'
  {
    if idx == Quad12VOnOff then "P1"
    else if idx == AdjPowOnOff || idx == AdjVoltage then "P2"
    else if idx == DewAPwm || idx == DewACurrent then "P3"
    else if idx == DewBPwm || idx == DewBCurrent then "P4"
    else if idx == AutodewOnOff || idx == DewAggressiveness then "PD"
    else "PU"
  }

  /** The command `set_switch` sends: the switch's channel, then a non-zero
      level to turn it on or level 0 to turn it off. Sensors are refused
      with INVALID_OPERATION, unknown indices with INVALID_VALUE. */
  function SwitchCommand(idx: nat, state: bool): (r: Result<string>)
    ensures r == Err(InvalidOperation) <==> idx in Sensors
    ensures r == Err(InvalidValue) <==> idx >= MaxSwitch
    ensures r.Ok? ==> (idx in Controls && |r.value| >= 4
      && r.value[..3] == Channel(idx) + ":" && (r.value[3..] == "0" <==> !state))
  {
    if idx in Sensors then Err(InvalidOperation)
    else if idx == Quad12VOnOff then Ok(if state then "P1:1" else "P1:0")
    else if idx == AdjVoltage || idx == AdjPowOnOff then Ok(if state then "P2:1" else "P2:0")
    else if idx == DewAPwm then Ok(if state then "P3:255" else "P3:0")
    else if idx == DewBPwm then Ok(if state then "P4:255" else "P4:0")
    else if idx == AutodewOnOff then Ok(if state then "PD:1" else "PD:0")
    else if idx == DewAggressiveness then Ok(if state then "PD:254" else "PD:0")
    else if idx == Usb2OnOff then Ok(if state then "PU:1" else "PU:0")
    else Err(InvalidValue)
  }

  /** The adjustable output's voltage step for a requested voltage: the
      chain of range tests of `set_switch_value`, in order. */
  function AdjVoltageCommand(x: real): (c: Option<string>)
    ensures c.Some? <==> 3.0 <= x <= 12.0
    ensures c == Some("P2:3") <==> 3.0 <= x < 5.0
    ensures c == Some("P2:5") <==> 5.0 <= x < 7.0
    ensures c == Some("P2:7") <==> 7.0 <= x < 8.0
    ensures c == Some("P2:8") <==> x == 8.0
    ensures c == Some("P2:9") <==> 8.0 < x <= 9.0
    ensures c == Some("P2:12") <==> 9.0 < x <= 12.0
  {
    if x >= 3.0 && x < 5.0 then Some("P2:3")
    else if x >= 5.0 && x < 7.0 then Some("P2:5")
    else if x >= 7.0 && x < 8.0 then Some("P2:7")
    else if x > 7.0 && x <= 8.0 then Some("P2:8")
    else if x > 8.0 && x <= 9.0 then Some("P2:9")
    else if x > 9.0 && x <= 12.0 then Some("P2:12")
    else None
  }

  /** The command `set_switch_value` sends for value `v`, or the error it
      throws before sending anything. On/off switches take 0..1, the PWM
      set points 0..255, the aggressiveness 1..254 and the adjustable
      voltage 3..12; the uptime and unknown indices are INVALID_VALUE. */
  function ValueCommand(idx: nat, v: Fixed): (r: Result<string>)
    ensures r == Err(InvalidOperation) <==> idx in ValueReadOnly
    ensures r.Err? && idx !in ValueReadOnly ==> r.error == InvalidValue
    ensures idx in OnOff ==> (r.Ok? <==> 0.0 <= RealOf(v) <= 1.0)
    ensures idx == DewAPwm || idx == DewBPwm ==> (r.Ok? <==> 0.0 <= RealOf(v) <= 255.0)
    ensures idx == DewAggressiveness ==> (r.Ok? <==> 1.0 <= RealOf(v) <= 254.0)
    ensures idx == AdjVoltage ==> (r.Ok? <==> 3.0 <= RealOf(v) <= 12.0)
    ensures r.Ok? ==> idx in Settable
  {
    var x := RealOf(v);
    if idx in ValueReadOnly then Err(InvalidOperation)
    else if idx == Quad12VOnOff then
      if x < 0.0 || x > 1.0 then Err(InvalidValue)
      else Ok(if x > 0.0 then "P1:1" else "P1:0")
    else if idx == AdjPowOnOff then
      if x < 0.0 || x > 1.0 then Err(InvalidValue)
      else Ok(if x > 0.0 then "P2:1" else "P2:0")
    else if idx == AdjVoltage then
      if x < 3.0 || x > 12.0 then Err(InvalidValue)
      else Ok(AdjVoltageCommand(x).value)
    else if idx == DewAPwm || idx == DewBPwm then
      if x < 0.0 || x > 255.0 then Err(InvalidValue)
      else Ok(Channel(idx) + ":" + DoubleText(v))
    else if idx == DewACurrent || idx == DewBCurrent || idx == AutodewOnOff then
      if x < 0.0 || x > 1.0 then Err(InvalidValue)
      else Ok(Channel(idx) + ":" + DoubleText(v))
    else if idx == DewAggressiveness then
      if x < 1.0 || x > 254.0 then Err(InvalidValue)
      else Ok(Channel(idx) + ":" + DoubleText(v))
    else if idx == Usb2OnOff then
      if x < 0.0 || x > 1.0 then Err(InvalidValue)
      else Ok(if x > 0.0 then "PU:1" else "PU:0")
    else Err(InvalidValue)
  }

  /** A value command is addressed to the switch's channel, and the value
      it carries lies within the range the switch advertises. */
  lemma ValueCommandShape(idx: nat, v: Fixed)
    requires ValueCommand(idx, v).Ok?
    ensures |ValueCommand(idx, v).value| >= 4
    ensures ValueCommand(idx, v).value[..3] == Channel(idx) + ":"
    ensures MinSwitchValue(idx).Ok? && MaxSwitchValue(idx).Ok?
    ensures MinSwitchValue(idx).value <= RealOf(v) <= MaxSwitchValue(idx).value
  {
    var c := ValueCommand(idx, v).value;
    if idx in {DewAPwm, DewBPwm, DewACurrent, DewBCurrent, AutodewOnOff, DewAggressiveness} {
      assert c == Channel(idx) + ":" + DoubleText(v);
    }
  }

  /** The level a value command carries reads back, with `atof`, as the
      value set, for the switches whose value is sent as written; the
      on/off switches send 1 for any positive value and 0 for zero. */
  lemma ValueCommandLevel(idx: nat, v: Fixed)
    requires ValueCommand(idx, v).Ok?
    ensures idx in {DewAPwm, DewBPwm, DewACurrent, DewBCurrent, AutodewOnOff, DewAggressiveness}
      ==> Atof(ValueCommand(idx, v).value[3..]) == RealOf(v)
    ensures idx in {Quad12VOnOff, AdjPowOnOff, Usb2OnOff}
      ==> ValueCommand(idx, v).value[3..] == (if RealOf(v) > 0.0 then "1" else "0")
  {
    if idx in {DewAPwm, DewBPwm, DewACurrent, DewBCurrent, AutodewOnOff, DewAggressiveness} {
      assert ValueCommand(idx, v).value == Channel(idx) + ":" + DoubleText(v);
      assert ValueCommand(idx, v).value[3..] == DoubleText(v);
      AtofOfDoubleText(v);
    }
  }

  /** The readings the `PA` status query refreshes. */
  datatype PowerStatus = PowerStatus(
    voltage: real, temp: real, humidity: uint32, dewPoint: real,
    quadportOn: bool, adjPowerOn: bool, dewAPwm: uint32, dewBPwm: uint32,
    autodew: bool, powerWarning: bool, adjPowerVoltage: uint32)

  /** The readings the `PC` power metrics query refreshes. */
  datatype PowerMetrics = PowerMetrics(
    totalCurrent: real, current12V: real, currentOfDewA: real,
    currentOfDewB: real, uptimeInMins: uint32)

  /** Everything one `update_properties` pass reads: the `PA` status, the
      `PC` metrics, the `PS` power and the `DA` dew aggressiveness. */
  datatype Readings = Readings(
    status: PowerStatus, metrics: PowerMetrics, power: real,
    dewAggressiveness: uint32)

  /** A status flag: set exactly when its field is "1". */
  predicate IsOne(field: string) { field == "1" }

  /** The reply to `PA`: "PPBA", then the input voltage, the 12V current
      (not read), the temperature, the humidity, the dew point, the quad
      port and adjustable output flags, the two dew heater PWMs, the
      automatic dew and power warning flags and the adjustable voltage. A
      reply with another first field, or too few fields, is a driver
      error. */
  function ParseStatus(reply: string): (r: Result<PowerStatus>)
    ensures r.Ok? <==> Fields(reply, ':')[0] == "PPBA" && |Fields(reply, ':')| >= 13
    ensures r.Err? ==> r.error == DriverError
  {
    var f := Fields(reply, ':');
    if f[0] != "PPBA" || |f| < 13 then Err(DriverError)
    else Ok(PowerStatus(
      Atof(f[1]), Atof(f[3]), Wrap32(Atoi(f[4])), Atof(f[5]),
      IsOne(f[6]), IsOne(f[7]), Wrap32(Atoi(f[8])), Wrap32(Atoi(f[9])),
      IsOne(f[10]), IsOne(f[11]), Wrap32(Atoi(f[12]))))
  }

  /** `std::atoi(ms) / 60000.0` stored in a `uint32_t`: whole minutes, the
      fraction cut off toward zero. */
  function UptimeMinutes(ms: int): (m: uint32)
    ensures 0 <= ms < 0x1_0000_0000 ==> m as int * 60000 <= ms < (m as int + 1) * 60000
  {
    Wrap32(if ms >= 0 then ms / 60000 else -((-ms) / 60000))
  }

  /** The reply to `PC`: "PC", then the total current, the 12V current, the
      two dew heater currents and the uptime in milliseconds. */
  function ParseMetrics(reply: string): (r: Result<PowerMetrics>)
    ensures r.Ok? <==> Fields(reply, ':')[0] == "PC" && |Fields(reply, ':')| >= 6
    ensures r.Err? ==> r.error == DriverError
  {
    var f := Fields(reply, ':');
    if f[0] != "PC" || |f| < 6 then Err(DriverError)
    else Ok(PowerMetrics(Atof(f[1]), Atof(f[2]), Atof(f[3]), Atof(f[4]), UptimeMinutes(Atoi(f[5]))))
  }

  /** The reply to `PS`: "PS", and the power in watts as the fourth field. */
  function ParsePower(reply: string): (r: Result<real>)
    ensures r.Ok? <==> Fields(reply, ':')[0] == "PS" && |Fields(reply, ':')| >= 4
    ensures r.Err? ==> r.error == DriverError
  {
    var f := Fields(reply, ':');
    if f[0] != "PS" || |f| < 4 then Err(DriverError) else Ok(Atof(f[3]))
  }

  /** The reply to `DA`: "DA" and the dew aggressiveness. */
  function ParseAggressiveness(reply: string): (r: Result<uint32>)
    ensures r.Ok? <==> Fields(reply, ':')[0] == "DA" && |Fields(reply, ':')| >= 2
    ensures r.Err? ==> r.error == DriverError
  {
    var f := Fields(reply, ':');
    if f[0] != "DA" || |f| < 2 then Err(DriverError) else Ok(Wrap32(Atoi(f[1])))
  }

  /** What the box reports to `PA`, as it writes it. */
  datatype StatusReport = StatusReport(
    voltage: Fixed, current12V: Fixed, temp: Fixed, humidity: uint32,
    dewPoint: Fixed, quadportOn: bool, adjPowerOn: bool, dewAPwm: uint32,
    dewBPwm: uint32, autodew: bool, powerWarning: bool, adjPowerVoltage: uint32)

  function FlagText(b: bool): string { if b then "1" else "0" }

  /** The fields of a `PA` reply. */
  function StatusFields(s: StatusReport): seq<string>
  {
    ["PPBA", DoubleText(s.voltage), DoubleText(s.current12V), DoubleText(s.temp),
     Decimal(s.humidity as nat), DoubleText(s.dewPoint), FlagText(s.quadportOn),
     FlagText(s.adjPowerOn), Decimal(s.dewAPwm as nat), Decimal(s.dewBPwm as nat),
     FlagText(s.autodew), FlagText(s.powerWarning), Decimal(s.adjPowerVoltage as nat)]
  }

  /** A rendered number or flag holds no ':'. */
  lemma NoColon(x: Fixed, n: nat)
    ensures ':' !in DoubleText(x) && ':' !in Decimal(n)
  {
    DoubleTextChars(x);
    assert forall i :: 0 <= i < |Decimal(n)| ==> IsDigit(Decimal(n)[i]);
  }

  /** An unsigned reading the box writes in decimal reads back unchanged. */
  lemma ReadUint32(n: uint32)
    ensures Wrap32(Atoi(Decimal(n as nat))) == n
  {
    AtoiOfDigits(Decimal(n as nat));
    ValueOfDecimal(n as nat);
  }

  /** The fields of a `PA` reply are split back apart as written. */
  lemma StatusFieldsSplit(s: StatusReport)
    ensures Fields(OnStepResponses.Join(StatusFields(s), ':'), ':') == StatusFields(s)
  {
    var f := StatusFields(s);
    NoColon(s.voltage, s.humidity as nat);
    NoColon(s.current12V, s.dewAPwm as nat);
    NoColon(s.temp, s.dewBPwm as nat);
    NoColon(s.dewPoint, s.adjPowerVoltage as nat);
    forall i | 0 <= i < |f| ensures ':' !in f[i] {
    }
    FieldsOfJoin(f, ':');
  }

  /** Every reading of a `PA` reply the box writes is read back as written. */
  lemma StatusRoundTrip(s: StatusReport)
    ensures ParseStatus(OnStepResponses.Join(StatusFields(s), ':'))
      == Ok(PowerStatus(RealOf(s.voltage), RealOf(s.temp), s.humidity, RealOf(s.dewPoint),
                        s.quadportOn, s.adjPowerOn, s.dewAPwm, s.dewBPwm,
                        s.autodew, s.powerWarning, s.adjPowerVoltage))
  {
    var f := StatusFields(s);
    var reply := OnStepResponses.Join(f, ':');
    StatusFieldsSplit(s);
    assert ParseStatus(reply) == Ok(PowerStatus(
      Atof(f[1]), Atof(f[3]), Wrap32(Atoi(f[4])), Atof(f[5]),
      IsOne(f[6]), IsOne(f[7]), Wrap32(Atoi(f[8])), Wrap32(Atoi(f[9])),
      IsOne(f[10]), IsOne(f[11]), Wrap32(Atoi(f[12]))));
    AtofOfDoubleText(s.voltage);
    AtofOfDoubleText(s.temp);
    AtofOfDoubleText(s.dewPoint);
    ReadUint32(s.humidity);
    ReadUint32(s.dewAPwm);
    ReadUint32(s.dewBPwm);
    ReadUint32(s.adjPowerVoltage);
    assert IsOne(f[6]) == s.quadportOn && IsOne(f[7]) == s.adjPowerOn;
    assert IsOne(f[10]) == s.autodew && IsOne(f[11]) == s.powerWarning;
  }

  /** What the box reports to `PC`, as it writes it: four currents and the
      uptime in milliseconds. */
  datatype MetricsReport = MetricsReport(
    totalCurrent: Fixed, current12V: Fixed, currentOfDewA: Fixed,
    currentOfDewB: Fixed, uptimeMs: nat)

  /** The fields of a `PC` reply. */
  function MetricsFields(m: MetricsReport): seq<string>
  {
    ["PC", DoubleText(m.totalCurrent), DoubleText(m.current12V),
     DoubleText(m.currentOfDewA), DoubleText(m.currentOfDewB), Decimal(m.uptimeMs)]
  }

  lemma MetricsFieldsSplit(m: MetricsReport)
    ensures Fields(OnStepResponses.Join(MetricsFields(m), ':'), ':') == MetricsFields(m)
  {
    var f := MetricsFields(m);
    NoColon(m.totalCurrent, m.uptimeMs);
    NoColon(m.current12V, 0);
    NoColon(m.currentOfDewA, 0);
    NoColon(m.currentOfDewB, 0);
    forall i | 0 <= i < |f| ensures ':' !in f[i] {
    }
    FieldsOfJoin(f, ':');
  }

  /** The currents of a `PC` reply read back as written, and the uptime as
      the whole minutes in it. */
  lemma MetricsRoundTrip(m: MetricsReport)
    ensures ParseMetrics(OnStepResponses.Join(MetricsFields(m), ':'))
      == Ok(PowerMetrics(RealOf(m.totalCurrent), RealOf(m.current12V), RealOf(m.currentOfDewA),
                         RealOf(m.currentOfDewB), UptimeMinutes(m.uptimeMs)))
  {
    var f := MetricsFields(m);
    MetricsFieldsSplit(m);
    assert Fields(OnStepResponses.Join(f, ':'), ':') == f;
    AtofOfDoubleText(m.totalCurrent);
    AtofOfDoubleText(m.current12V);
    AtofOfDoubleText(m.currentOfDewA);
    AtofOfDoubleText(m.currentOfDewB);
    AtoiOfDigits(Decimal(m.uptimeMs));
    ValueOfDecimal(m.uptimeMs);
    assert Atoi(f[5]) == m.uptimeMs as int;
    assert ParseMetrics(OnStepResponses.Join(f, ':'))
      == Ok(PowerMetrics(Atof(f[1]), Atof(f[2]), Atof(f[3]), Atof(f[4]), UptimeMinutes(Atoi(f[5]))));
  }

  /** A `DA` reply the box writes reads back as written. */
  lemma AggressivenessRoundTrip(a: uint32)
    ensures ParseAggressiveness(OnStepResponses.Join(["DA", Decimal(a as nat)], ':')) == Ok(a)
  {
    var f := ["DA", Decimal(a as nat)];
    NoColon(Fixed(false, 0, 0), a as nat);
    forall i | 0 <= i < |f| ensures ':' !in f[i] {
    }
    FieldsOfJoin(f, ':');
    ReadUint32(a);
  }

  /** Every reply of an `update_properties` pass is accepted. */
  predicate RefreshAccepted(pa: string, pc: string, ps: string, da: string)
  {
    ParseStatus(pa).Ok? && ParseMetrics(pc).Ok? && ParsePower(ps).Ok? && ParseAggressiveness(da).Ok?
  }

  /** The readings after an `update_properties` pass over the given replies:
      each group is stored as soon as its reply is accepted, and the first
      rejected reply leaves it and every later group as they were. */
  function Refreshed(rd: Readings, pa: string, pc: string, ps: string, da: string): (n: Readings)
    ensures n.status == (if ParseStatus(pa).Ok? then ParseStatus(pa).value else rd.status)
    ensures n.metrics == (if ParseStatus(pa).Ok? && ParseMetrics(pc).Ok?
                          then ParseMetrics(pc).value else rd.metrics)
    ensures n.power == (if ParseStatus(pa).Ok? && ParseMetrics(pc).Ok? && ParsePower(ps).Ok?
                        then ParsePower(ps).value else rd.power)
    ensures n.dewAggressiveness == (if RefreshAccepted(pa, pc, ps, da)
                                    then ParseAggressiveness(da).value else rd.dewAggressiveness)
  {
    match ParseStatus(pa)
    case Err(_) => rd
    case Ok(status) =>
      var rd := rd.(status := status);
      match ParseMetrics(pc)
      case Err(_) => rd
      case Ok(metrics) =>
        var rd := rd.(metrics := metrics);
        match ParsePower(ps)
        case Err(_) => rd
        case Ok(power) =>
          var rd := rd.(power := power);
          match ParseAggressiveness(da)
          case Err(_) => rd
          case Ok(aggressiveness) => rd.(dewAggressiveness := aggressiveness)
  }

  /** A `double` holding a flag: 1 for true, 0 for false. */
  function FlagValue(b: bool): real { if b then 1.0 else 0.0 }

  /** The keys `details` adds to "Connected" and "Serial Device" while the
      box is connected, in four groups: status, metrics, dew heaters and
      outputs. */
  const StatusKeys: set<string> :=
    {"Voltage", "Power", "Temperature", "Humidity", "Dewpoint", "Power Warning"}
  const MetricsKeys: set<string> :=
    {"Current", "Current 12V", "Uptime (mins)", "DewA Current", "DewB Current"}
  const DewKeys: set<string> := {"DewA PWM", "DewB PWM", "Autodew", "Autodew Aggressiveness"}
  const OutputKeys: set<string> := {"Quad Port 12V On", "Adj Output On", "Adj Output Voltage", "USB2 Ports On"}
  const ReadingKeys: set<string> := StatusKeys + MetricsKeys + DewKeys + OutputKeys

  /** No key of `details` belongs to two groups, and none of the readings is
      "Connected" or "Serial Device". */
  lemma StatusKeysApart()
    ensures StatusKeys !! MetricsKeys + DewKeys + OutputKeys
  {
  }

  lemma MetricsKeysApart()
    ensures MetricsKeys !! DewKeys + OutputKeys
  {
  }

  lemma DewKeysApart()
    ensures DewKeys !! OutputKeys
  {
  }

  /** The connection entries beside the readings keep their values. */
  lemma ReadingsUnderBase(c: Variant, p: Variant, r: map<string, Variant>)
    requires r.Keys == ReadingKeys
    ensures (map["Connected" := c, "Serial Device" := p] + r).Keys == {"Connected", "Serial Device"} + ReadingKeys
    ensures (map["Connected" := c, "Serial Device" := p] + r)["Connected"] == c
    ensures (map["Connected" := c, "Serial Device" := p] + r)["Serial Device"] == p
  {
    ReadingKeysApart();
  }

  lemma ReadingKeysApart()
    ensures {"Connected", "Serial Device"} !! ReadingKeys
  {
    assert {"Connected", "Serial Device"} !! StatusKeys + MetricsKeys;
    assert {"Connected", "Serial Device"} !! DewKeys + OutputKeys;
  }

  /** `pegasus_alpaca_ppba`: the connection, the last readings and the state
      of the USB2 hub, which only the switch setters change. */
  class PowerBox {
    var connected: bool
    var serialDevicePath: string
    var readings: Readings
    var usb2OnOff: bool

    /** Disconnected, every reading zero, the quad port, the USB2 hub and
        automatic dew on, no power warning. The adjustable output's flag and
        voltage are left uninitialised by the driver; here they start with
        arbitrary values. */
    constructor ()
      ensures !connected && serialDevicePath == "" && usb2OnOff
      ensures readings.status == PowerStatus(0.0, 0.0, 0, 0.0, true, readings.status.adjPowerOn,
                                             0, 0, true, false, readings.status.adjPowerVoltage)
      ensures readings.metrics == PowerMetrics(0.0, 0.0, 0.0, 0.0, 0)
      ensures readings.power == 0.0 && readings.dewAggressiveness == 0
    {
      var adjPowerOn: bool :| true;
      var adjPowerVoltage: uint32 :| true;
      connected := false;
      serialDevicePath := "";
      readings := Readings(
        PowerStatus(0.0, 0.0, 0, 0.0, true, adjPowerOn, 0, 0, true, false, adjPowerVoltage),
        PowerMetrics(0.0, 0.0, 0.0, 0.0, 0), 0.0, 0);
      usb2OnOff := true;
    }

    /** `set_connected`. Connecting while connected returns 0 and changes
        nothing; otherwise connecting succeeds when the port opens (`portOpened`)
        and fails with DRIVER_ERROR, still disconnected, when it does not.
        Disconnecting always ends disconnected, with DRIVER_ERROR if an
        open port fails to close (`portClosed`). */
    method SetConnected(connect: bool, portOpened: bool, portClosed: bool) returns (r: Result<int>)
      modifies this
      ensures old(connected) && connect ==> r == Ok(0) && connected
      ensures !old(connected) && connect ==> (r.Ok? <==> portOpened) && (connected <==> portOpened)
      ensures !connect ==> !connected && (r.Ok? <==> !old(connected) || portClosed)
      ensures r.Ok? ==> r.value == 0
      ensures r.Err? ==> r.error == DriverError
      ensures readings == old(readings) && usb2OnOff == old(usb2OnOff)
      ensures serialDevicePath == old(serialDevicePath)
    {
      if connected && connect {
        return Ok(0);
      }
      if connect {
        if !portOpened {
          return Err(DriverError);
        }
        connected := true;
        return Ok(0);
      } else {
        var wasConnected := connected;
        if connected {
          connected := false;
        }
        connected := false;
        if wasConnected && !portClosed {
          return Err(DriverError);
        }
        return Ok(0);
      }
    }

    /** `update_properties`: one pass over the `PA`, `PC`, `PS` and `DA`
        queries, given the box's replies, stopping at the first rejected
        reply with DRIVER_ERROR. */
    method UpdateProperties(pa: string, pc: string, ps: string, da: string) returns (r: Result<()>)
      modifies this
      ensures readings == Refreshed(old(readings), pa, pc, ps, da)
      ensures r.Ok? <==> RefreshAccepted(pa, pc, ps, da)
      ensures r.Err? ==> r.error == DriverError
      ensures unchanged(this`connected, this`usb2OnOff, this`serialDevicePath)
    {
      var status := ParseStatus(pa);
      r := Store(if status.Ok? then Ok(readings.(status := status.value)) else Err(status.error));
      if r.Err? {
        return;
      }
      var metrics := ParseMetrics(pc);
      r := Store(if metrics.Ok? then Ok(readings.(metrics := metrics.value)) else Err(metrics.error));
      if r.Err? {
        return;
      }
      var power := ParsePower(ps);
      r := Store(if power.Ok? then Ok(readings.(power := power.value)) else Err(power.error));
      if r.Err? {
        return;
      }
      var aggressiveness := ParseAggressiveness(da);
      r := Store(if aggressiveness.Ok? then Ok(readings.(dewAggressiveness := aggressiveness.value))
                 else Err(aggressiveness.error));
    }

    /** Stores a group of readings whose reply was accepted, or reports the
        reply's error and stores nothing. */
    method Store(next: Result<Readings>) returns (r: Result<()>)
      modifies this
      ensures readings == (if next.Ok? then next.value else old(readings))
      ensures r == (if next.Ok? then Ok(()) else Err(next.error))
      ensures unchanged(this`connected, this`usb2OnOff, this`serialDevicePath)
    {
      if next.Err? {
        return Err(next.error);
      }
      readings := next.value;
      r := Ok(());
    }

    /** `set_switch`: sends the switch's on or off command and succeeds only
        when the box echoes it exactly; a sensor or an unknown index is
        refused before anything is sent. The USB2 hub state is recorded only
        after a good echo. */
    method SetSwitch(idx: nat, state: bool, echo: string) returns (r: Result<int>, sent: Option<string>)
      modifies this
      ensures SwitchCommand(idx, state).Err? ==> sent == None && r == Err(SwitchCommand(idx, state).error)
      ensures SwitchCommand(idx, state).Ok? ==> sent == Some(SwitchCommand(idx, state).value)
      ensures sent.Some? ==> (r.Ok? <==> echo == sent.value)
      ensures sent.Some? && r.Err? ==> r.error == DriverError
      ensures r.Ok? ==> r.value == 0
      ensures usb2OnOff == (if idx == Usb2OnOff && r.Ok? then state else old(usb2OnOff))
      ensures connected == old(connected) && readings == old(readings)
      ensures serialDevicePath == old(serialDevicePath)
    {
      var command := SwitchCommand(idx, state);
      if command.Err? {
        return Err(command.error), None;
      }
      sent := Some(command.value);
      if echo != command.value {
        return Err(DriverError), sent;
      }
      if idx == Usb2OnOff {
        usb2OnOff := state;
      }
      r := Ok(0);
    }

    /** `set_switch_value`: checks the value against the switch's range,
        sends the command for it and succeeds only when the box echoes it
        exactly. The USB2 hub state is recorded (on for any positive value)
        only after a good echo. */
    method SetSwitchValue(idx: nat, v: Fixed, echo: string) returns (r: Result<int>, sent: Option<string>)
      modifies this
      ensures ValueCommand(idx, v).Err? ==> sent == None && r == Err(ValueCommand(idx, v).error)
      ensures ValueCommand(idx, v).Ok? ==> sent == Some(ValueCommand(idx, v).value)
      ensures sent.Some? ==> (r.Ok? <==> echo == sent.value)
      ensures sent.Some? && r.Err? ==> r.error == DriverError
      ensures r.Ok? ==> r.value == 0
      ensures usb2OnOff == (if idx == Usb2OnOff && r.Ok? then RealOf(v) > 0.0 else old(usb2OnOff))
      ensures connected == old(connected) && readings == old(readings)
      ensures serialDevicePath == old(serialDevicePath)
    {
      var command := ValueCommand(idx, v);
      if command.Err? {
        return Err(command.error), None;
      }
      sent := Some(command.value);
      if echo != command.value {
        return Err(DriverError), sent;
      }
      if idx == Usb2OnOff {
        usb2OnOff := RealOf(v) > 0.0;
      }
      r := Ok(0);
    }

    /** `get_switch_value`: the reading or setting behind each switch, flags
        as 0 or 1. */
    function GetSwitchValue(idx: nat): (r: Result<real>)
      reads this
      ensures r.Ok? <==> idx < MaxSwitch
      ensures r.Err? ==> r.error == InvalidValue
    {
      var st, m := readings.status, readings.metrics;
      if idx == InputVoltage then Ok(st.voltage)
      else if idx == Current then Ok(m.totalCurrent)
      else if idx == Current12V then Ok(m.current12V)
      else if idx == Power then Ok(readings.power)
      else if idx == Temp then Ok(st.temp)
      else if idx == Humidity then Ok(st.humidity as int as real)
      else if idx == DewPoint then Ok(st.dewPoint)
      else if idx == Quad12VOnOff then Ok(FlagValue(st.quadportOn))
      else if idx == AdjPowOnOff then Ok(FlagValue(st.adjPowerOn))
      else if idx == AdjVoltage then Ok(st.adjPowerVoltage as int as real)
      else if idx == DewAPwm then Ok(st.dewAPwm as int as real)
      else if idx == DewBPwm then Ok(st.dewBPwm as int as real)
      else if idx == DewACurrent then Ok(m.currentOfDewA)
      else if idx == DewBCurrent then Ok(m.currentOfDewB)
      else if idx == AutodewOnOff then Ok(FlagValue(st.autodew))
      else if idx == PowerWarn then Ok(FlagValue(st.powerWarning))
      else if idx == UptimeMs then Ok(m.uptimeInMins as int as real)
      else if idx == DewAggressiveness then Ok(readings.dewAggressiveness as int as real)
      else if idx == Usb2OnOff then Ok(FlagValue(usb2OnOff))
      else Err(InvalidValue)
    }

    /** `get_switch`: the readings that are not on/off report true; every
        other switch is on exactly when its value is non-zero. The uptime is
        missing from the table and gets the error of an unknown index. */
    function GetSwitch(idx: nat): (r: Result<bool>)
      reads this
      ensures r.Ok? <==> idx < MaxSwitch && idx != UptimeMs
      ensures r.Err? ==> r.error == InvalidValue
      ensures r.Ok? && idx in Sensors - {PowerWarn} ==> r.value
      ensures r.Ok? && (idx in Controls || idx == PowerWarn)
        ==> (r.value <==> GetSwitchValue(idx).value != 0.0)
    {
      var st := readings.status;
      if idx == InputVoltage || idx == Current || idx == Current12V || idx == Power
        || idx == Temp || idx == Humidity || idx == DewPoint
      then Ok(true)
      else if idx == PowerWarn then Ok(st.powerWarning)
      else if idx == Quad12VOnOff then Ok(st.quadportOn)
      else if idx == AdjPowOnOff then Ok(st.adjPowerOn)
      else if idx == AdjVoltage then Ok(st.adjPowerVoltage != 0)
      else if idx == DewAPwm then Ok(st.dewAPwm != 0)
      else if idx == DewBPwm then Ok(st.dewBPwm != 0)
      else if idx == DewACurrent || idx == DewBCurrent then Ok(true)
      else if idx == AutodewOnOff then Ok(st.autodew)
      else if idx == DewAggressiveness then Ok(readings.dewAggressiveness != 0)
      else if idx == Usb2OnOff then Ok(usb2OnOff)
      else Err(InvalidValue)
    }

    /** The status readings `details` reports while connected. */
    function StatusReadings(): (d: map<string, Variant>)
      reads this
      ensures d.Keys == StatusKeys && ReadingsOfStatus(d)
    {
      var st := readings.status;
      map[
        "Voltage" := Number(st.voltage),
        "Power" := Number(readings.power),
        "Temperature" := Number(st.temp),
        "Humidity" := Whole(st.humidity as int),
        "Dewpoint" := Number(st.dewPoint),
        "Power Warning" := Flag(st.powerWarning)]
    }

    /** The currents and the uptime `details` reports while connected. */
    function MetricsReadings(): (d: map<string, Variant>)
      reads this
      ensures d.Keys == MetricsKeys && ReadingsOfMetrics(d)
    {
      var m := readings.metrics;
      map[
        "Current" := Number(m.totalCurrent),
        "Current 12V" := Number(m.current12V),
        "Uptime (mins)" := Whole(m.uptimeInMins as int),
        "DewA Current" := Number(m.currentOfDewA),
        "DewB Current" := Number(m.currentOfDewB)]
    }

    /** The dew heater readings `details` reports while connected. */
    function DewReadings(): (d: map<string, Variant>)
      reads this
      ensures d.Keys == DewKeys && ReadingsOfDew(d)
    {
      var st := readings.status;
      map[
        "DewA PWM" := Whole(st.dewAPwm as int),
        "DewB PWM" := Whole(st.dewBPwm as int),
        "Autodew" := Flag(st.autodew),
        "Autodew Aggressiveness" := Whole(readings.dewAggressiveness as int)]
    }

    /** The output states `details` reports while connected. */
    function OutputReadings(): (d: map<string, Variant>)
      reads this
      ensures d.Keys == OutputKeys && ReadingsOfOutputs(d)
    {
      var st := readings.status;
      map[
        "Quad Port 12V On" := Flag(st.quadportOn),
        "Adj Output On" := Flag(st.adjPowerOn),
        "Adj Output Voltage" := Whole(st.adjPowerVoltage as int),
        "USB2 Ports On" := Flag(usb2OnOff)]
    }

    /** The readings `details` reports while connected. */
    function ReadingsMap(): (d: map<string, Variant>)
      reads this
      ensures d.Keys == ReadingKeys
      ensures ReadingsOfStatus(d) && ReadingsOfMetrics(d) && ReadingsOfDew(d) && ReadingsOfOutputs(d)
    {
      StatusKeysApart();
      MetricsKeysApart();
      DewKeysApart();
      StatusReadings() + MetricsReadings() + DewReadings() + OutputReadings()
    }

    /** The voltage, power and environment readings of a `details` map. */
    ghost predicate ReadingsOfStatus(d: map<string, Variant>)
      reads this
    {
      var st := readings.status;
      && "Voltage" in d && "Power" in d && "Temperature" in d && "Humidity" in d
      && "Dewpoint" in d && "Power Warning" in d
      && d["Voltage"] == Number(st.voltage) && d["Power"] == Number(readings.power)
      && d["Temperature"] == Number(st.temp) && d["Humidity"] == Whole(st.humidity as int)
      && d["Dewpoint"] == Number(st.dewPoint) && d["Power Warning"] == Flag(st.powerWarning)
    }

    /** The current and uptime readings of a `details` map. */
    ghost predicate ReadingsOfMetrics(d: map<string, Variant>)
      reads this
    {
      var m := readings.metrics;
      && "Current" in d && "Current 12V" in d && "Uptime (mins)" in d
      && "DewA Current" in d && "DewB Current" in d
      && d["Current"] == Number(m.totalCurrent) && d["Current 12V"] == Number(m.current12V)
      && d["Uptime (mins)"] == Whole(m.uptimeInMins as int)
      && d["DewA Current"] == Number(m.currentOfDewA) && d["DewB Current"] == Number(m.currentOfDewB)
    }

    /** The dew heater readings of a `details` map. */
    ghost predicate ReadingsOfDew(d: map<string, Variant>)
      reads this
    {
      var st := readings.status;
      && "DewA PWM" in d && "DewB PWM" in d && "Autodew" in d && "Autodew Aggressiveness" in d
      && d["DewA PWM"] == Whole(st.dewAPwm as int) && d["DewB PWM"] == Whole(st.dewBPwm as int)
      && d["Autodew"] == Flag(st.autodew)
      && d["Autodew Aggressiveness"] == Whole(readings.dewAggressiveness as int)
    }

    /** The output states of a `details` map, the USB2 hub included. */
    ghost predicate ReadingsOfOutputs(d: map<string, Variant>)
      reads this
    {
      var st := readings.status;
      && "Quad Port 12V On" in d && "Adj Output On" in d && "Adj Output Voltage" in d
      && "USB2 Ports On" in d
      && d["Quad Port 12V On"] == Flag(st.quadportOn) && d["Adj Output On"] == Flag(st.adjPowerOn)
      && d["Adj Output Voltage"] == Whole(st.adjPowerVoltage as int)
      && d["USB2 Ports On"] == Flag(usb2OnOff)
    }

    /** `details`: the connection and the serial device always, and every
        reading with its last value only while connected. */
    function Details(): (d: map<string, Variant>)
      reads this
      ensures d.Keys == {"Connected", "Serial Device"} + (if connected then ReadingKeys else {})
      ensures d["Connected"] == Flag(connected) && d["Serial Device"] == Text(serialDevicePath)
      ensures connected ==> ReadingsOfStatus(d) && ReadingsOfMetrics(d)
      ensures connected ==> ReadingsOfDew(d) && ReadingsOfOutputs(d)
    {
      var base := map["Connected" := Flag(connected), "Serial Device" := Text(serialDevicePath)];
      if connected then
        var r := ReadingsMap();
        ReadingsUnderBase(Flag(connected), Text(serialDevicePath), r);
        base + r
      else base
    }
  }
}

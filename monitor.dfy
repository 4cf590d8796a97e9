/** `FanMonitorApp` as a whole, without its drawing: the state `__init__`
    sets up and the once-a-second `update_data` refresh, which reads the
    sensors and the battery, appends to the histories, rewrites the readout
    labels and then runs the service and profile checks. */
module Monitor {
  import opened Wrappers
  import opened Text
  import opened Process
  import opened Sensor
  import opened Battery
  import opened History
  import opened Services
  import opened Panel
  import opened Widgets

  // ---------------------------------------------------------------------
  // Readout labels
  // ---------------------------------------------------------------------

  /** The three colour bands of a readout. */
  datatype Level = Low | Elevated | High

  /** `x > high` is High, else `x > elevated` is Elevated, else Low. */
  function Band(x: real, elevated: real, high: real): (l: Level)
    requires elevated <= high
    ensures l == High <==> x > high
    ensures l == Elevated <==> elevated < x <= high
    ensures l == Low <==> x <= elevated
  {
    if x > high then High else if x > elevated then Elevated else Low
  }

  function Rank(l: Level): nat {
    match l
    case Low => 0
    case Elevated => 1
    case High => 2
  }

  /** A higher reading is never shown in a lower band. */
  lemma BandMonotone(x: real, y: real, elevated: real, high: real)
    requires elevated <= high && x <= y
    ensures Rank(Band(x, elevated, high)) <= Rank(Band(y, elevated, high))
  {
  }

  const Red := "#ff6b6b"
  const Amber := "#f7b731"

  /** The colour of a band; the low colour differs per readout. */
  function BandColor(l: Level, low: string): string {
    match l
    case High => Red
    case Elevated => Amber
    case Low => low
  }

  /** Temperature colour: above 80 °C red, above 60 °C amber, else blue. */
  function TempColor(temp: int): (c: string)
    ensures temp > 80 ==> c == Red
    ensures 60 < temp <= 80 ==> c == Amber
    ensures temp <= 60 ==> c == "#74c0fc"
  {
    BandColor(Band(temp as real, 60.0, 80.0), "#74c0fc")
  }

  /** Fan colour: above 4000 RPM red, above 2000 RPM amber, else violet. */
  function RpmColor(rpm: int): (c: string)
    ensures rpm > 4000 ==> c == Red
    ensures 2000 < rpm <= 4000 ==> c == Amber
    ensures rpm <= 2000 ==> c == "#a78bfa"
  {
    BandColor(Band(rpm as real, 2000.0, 4000.0), "#a78bfa")
  }

  /** Power colour: above 30 W red, above 20 W amber, else cyan. A negative
      power reading is in the low band. */
  function PowerColor(power: real): (c: string)
    ensures power > 30.0 ==> c == Red
    ensures 20.0 < power <= 30.0 ==> c == Amber
    ensures power <= 20.0 ==> c == "#22d3ee"
  {
    BandColor(Band(power, 20.0, 30.0), "#22d3ee")
  }

  /** The icon for a battery status; unknown words get a question mark. */
  function StatusIcon(status: string): (icon: string)
    ensures status == "Discharging" ==> icon == "🔋"
    ensures status == "Charging" ==> icon == "⚡"
    ensures status == "Full" ==> icon == "✅"
    ensures status !in {"Discharging", "Charging", "Full"} ==> icon == "❓"
  {
    if status == "Discharging" then "🔋"
    else if status == "Charging" then "⚡"
    else if status == "Full" then "✅"
    else "❓"
  }

  /** `f"CPU: {temp}°C"`. */
  function TempText(temp: int): (t: string)
    ensures "CPU: " <= t
  {
    "CPU: " + IntToString(temp) + "°C"
  }

  /** The number in the temperature label reads back as the temperature. */
  lemma TempTextReadsBack(temp: int)
    ensures var t := TempText(temp);
      |t| >= 7 && ParseInt(t[5..|t| - 2]) == Some(temp)
  {
    var t := TempText(temp);
    assert t[5..|t| - 2] == IntToString(temp);
    ParseIntOfString(temp);
  }

  /** `f"FAN: {rpm} RPM ({duty}%)"`. */
  function RpmText(rpm: int, duty: int): (t: string)
    ensures "FAN: " <= t
  {
    "FAN: " + IntToString(rpm) + " RPM (" + IntToString(duty) + "%)"
  }

  /** The fan speed and the duty in the fan label read back as themselves. */
  lemma RpmTextReadsBack(rpm: int, duty: int)
    ensures var t := RpmText(rpm, duty);
      var a := IntToString(rpm);
      var b := IntToString(duty);
      && |t| == 13 + |a| + |b|
      && ParseInt(t[5..5 + |a|]) == Some(rpm)
      && ParseInt(t[|t| - 2 - |b|..|t| - 2]) == Some(duty)
  {
    var t := RpmText(rpm, duty);
    var a, b := IntToString(rpm), IntToString(duty);
    assert t[5..5 + |a|] == a;
    assert t[|t| - 2 - |b|..|t| - 2] == b;
    ParseIntOfString(rpm);
    ParseIntOfString(duty);
  }

  /** `f"STATUS: {icon} {battery_status}"`. */
  function BatteryText(status: string): (t: string)
    ensures "STATUS: " <= t
  {
    "STATUS: " + StatusIcon(status) + " " + status
  }

  /** The status word is the end of the battery label. */
  lemma BatteryTextEndsWithStatus(status: string)
    ensures var t := BatteryText(status);
      |t| >= |status| && t[|t| - |status|..] == status
  {
    var t := BatteryText(status);
    assert t == ("STATUS: " + StatusIcon(status) + " ") + status;
  }

  // ---------------------------------------------------------------------
  // One refresh
  // ---------------------------------------------------------------------

  /** Everything one `update_data` takes from outside: the sensor program's
      outcome and the JSON decoder, the three battery files, the clock, and
      the three status calls. */
  datatype Inputs = Inputs(
    sensors: Run, decode: string -> Json,
    status: FileRead, current: FileRead, voltage: FileRead,
    now: real,
    clevo: Run, cpufreq: Run, ryzenadj: Run)

  class FanMonitor {
    const history: MonitorHistory
    const panel: ControlPanel
    var currentRpm: int
    var tempLabel: Label
    var rpmLabel: Label
    /** The power label's colour; its text is a two-decimal float. */
    var powerColor: Option<string>
    var batteryLabel: string

    ghost predicate Valid()
      reads this, history, history.temps, history.rpms, history.powers, history.times, panel
    {
      history.Valid() && panel.Valid()
    }

    /** `__init__` up to the first refresh, `now` being the clock reading
        used to stamp the seed samples: the seeded histories, the panel as
        `create_ui` builds it, and the readouts' placeholder texts. */
    constructor (now: real)
      ensures Valid()
      ensures fresh(history) && fresh(history.temps) && fresh(history.rpms)
      ensures fresh(history.powers) && fresh(history.times) && fresh(panel)
      ensures |history.temps.items| == |history.rpms.items| == |history.powers.items| == HistoryLength
      ensures forall k :: 0 <= k < HistoryLength ==> history.temps.items[k] == 0 && history.rpms.items[k] == 0
      ensures forall k :: 0 <= k < HistoryLength ==> history.powers.items[k] == 0.0
      ensures |history.times.items| == HistoryLength
      ensures forall k :: 0 <= k < HistoryLength ==> history.times.items[k] == now - (HistoryLength - k) as real
      ensures panel.ClevoView() == InitialView(ClevoFanControl)
      ensures panel.CpufreqView() == InitialView(AutoCpuFreq)
      ensures panel.profileStatus == ProfileUnknown
      ensures panel.ProfileButtonStates() == (Normal, Normal, Normal)
      ensures currentRpm == 0
      ensures tempLabel == Label("CPU: --°C", None) && rpmLabel == Label("FAN: ---- RPM", None)
      ensures powerColor == None && batteryLabel == "STATUS: Unknown"
    {
      history := new MonitorHistory(now);
      panel := new ControlPanel();
      currentRpm := 0;
      tempLabel := Label("CPU: --°C", None);
      rpmLabel := Label("FAN: ---- RPM", None);
      powerColor := None;
      batteryLabel := "STATUS: Unknown";
    }

    /** `update_data`: one sample into every history, the readouts
        rewritten from it, then `update_service_statuses`. */
    method UpdateData(inp: Inputs)
      requires Valid()
      modifies this, history.temps, history.rpms, history.powers, history.times, panel
      ensures Valid()
      ensures var r := GetSensorValues(inp.sensors, inp.decode);
        && currentRpm == r.rpm
        && history.temps.items == LastN(old(history.temps.items) + [r.temp], HistoryLength)
        && history.rpms.items == LastN(old(history.rpms.items) + [r.rpm], HistoryLength)
        && tempLabel == Label(TempText(r.temp), Some(TempColor(r.temp)))
        && rpmLabel == Label(RpmText(r.rpm, r.duty), Some(RpmColor(r.rpm)))
      ensures var b := GetBatteryPower(inp.status, inp.current, inp.voltage);
        && history.powers.items == LastN(old(history.powers.items) + [b.power], HistoryLength)
        && powerColor == Some(PowerColor(b.power))
        && batteryLabel == BatteryText(b.status)
      ensures history.times.items == LastN(old(history.times.items) + [inp.now], HistoryLength)
      ensures panel.ClevoView() == Refresh(ClevoFanControl, old(panel.ClevoView()), inp.clevo)
      ensures panel.CpufreqView() == Refresh(AutoCpuFreq, old(panel.CpufreqView()), inp.cpufreq)
      ensures Profile.ReadProfile(inp.ryzenadj).None? ==>
        panel.profileStatus == old(panel.profileStatus)
        && panel.ProfileButtonStates() == old(panel.ProfileButtonStates())
      ensures Profile.ReadProfile(inp.ryzenadj).Some? ==>
        var r := Profile.ReadProfile(inp.ryzenadj).value;
        panel.profileStatus == ProfileShown(r.profile, r.fast, r.slow)
        && panel.ProfileButtonStates() == Profile.ProfileButtons(r.profile)
    {
      var reading := GetSensorValues(inp.sensors, inp.decode);
      var battery := GetBatteryPower(inp.status, inp.current, inp.voltage);
      ShowSample(reading, battery, inp.now);
      panel.UpdateServiceStatuses(inp.clevo, inp.cpufreq, inp.ryzenadj);
    }

    /** The part of `update_data` between the two reads and the status
        checks: the sample goes into the histories and the readouts. */
    method ShowSample(reading: Reading, battery: BatteryReading, now: real)
      requires Valid()
      modifies this, history.temps, history.rpms, history.powers, history.times
      ensures Valid()
      ensures currentRpm == reading.rpm
      ensures history.temps.items == LastN(old(history.temps.items) + [reading.temp], HistoryLength)
      ensures history.rpms.items == LastN(old(history.rpms.items) + [reading.rpm], HistoryLength)
      ensures history.powers.items == LastN(old(history.powers.items) + [battery.power], HistoryLength)
      ensures history.times.items == LastN(old(history.times.items) + [now], HistoryLength)
      ensures tempLabel == Label(TempText(reading.temp), Some(TempColor(reading.temp)))
      ensures rpmLabel == Label(RpmText(reading.rpm, reading.duty), Some(RpmColor(reading.rpm)))
      ensures powerColor == Some(PowerColor(battery.power))
      ensures batteryLabel == BatteryText(battery.status)
    {
      currentRpm := reading.rpm;
      history.Record(reading.temp, reading.rpm, battery.power, now);
      ShowReadouts(reading, battery);
    }

    /** The four `configure` calls on the readout labels. */
    method ShowReadouts(reading: Reading, battery: BatteryReading)
      modifies this
      ensures currentRpm == old(currentRpm)
      ensures tempLabel == Label(TempText(reading.temp), Some(TempColor(reading.temp)))
      ensures rpmLabel == Label(RpmText(reading.rpm, reading.duty), Some(RpmColor(reading.rpm)))
      ensures powerColor == Some(PowerColor(battery.power))
      ensures batteryLabel == BatteryText(battery.status)
    {
      tempLabel := Label(TempText(reading.temp), Some(TempColor(reading.temp)));
      rpmLabel := Label(RpmText(reading.rpm, reading.duty), Some(RpmColor(reading.rpm)));
      powerColor := Some(PowerColor(battery.power));
      batteryLabel := BatteryText(battery.status);
    }
  }

  /** A refresh whose sensor call failed records a zero sample and shows
      zeros, not the previous values. */
  lemma FailedSensorReadsAsZero(inp: Inputs)
    requires inp.sensors.Raised?
    ensures GetSensorValues(inp.sensors, inp.decode) == Zero
    ensures TempColor(GetSensorValues(inp.sensors, inp.decode).temp) == "#74c0fc"
  {
  }
}

/** `FanMonitorApp.get_battery_power`: reads `status`, `current_now` and
    `voltage_now` under /sys/class/power_supply/BAT0. The status file must
    be readable, or the whole reading is (0, "Unknown"); each of the two
    numbers falls back to 0 on its own when its file cannot be read or does
    not hold an integer. Power is current times voltage, each scaled from
    micro-units, and keeps the current's sign. */
module Battery {
  import opened Wrappers
  import opened Text

  /** What `open(...).read()` gives: the file's text, or an exception. */
  datatype FileRead = Unreadable | Contents(text: string)

  /** (power_w, status) as the method returns them. */
  datatype BatteryReading = BatteryReading(power: real, status: string)

  /** `int(f.read().strip())` inside its own `try`, 0 on any failure. */
  function ReadMicro(f: FileRead): (n: int)
    ensures f.Unreadable? ==> n == 0
    ensures f.Contents? && ParseInt(Strip(f.text)).None? ==> n == 0
  {
    match f
    case Unreadable => 0
    case Contents(text) => ParseInt(Strip(text)).GetOr(0)
  }

  /** A sysfs number file holds the decimal integer and whitespace around
      it (the kernel ends it with a newline); it reads back as that integer. */
  lemma ReadMicroOfNumber(pre: string, n: int, post: string)
    requires AllSpace(pre) && AllSpace(post)
    ensures ReadMicro(Contents(pre + IntToString(n) + post)) == n
  {
    var s := IntToString(n);
    var digits := NatToString(if n < 0 then -n else n);
    assert s[|s| - 1] == digits[|digits| - 1];
    assert !IsSpace(s[0]);
    StripPadded(pre, s, post);
    ParseIntOfString(n);
  }

  /** Watts from microamps and microvolts: `(µA / 10^6) * (µV / 10^6)`,
      computed here as one exact quotient. */
  function Watts(microamps: int, microvolts: int): real {
    (microamps * microvolts) as real / 1000000000000.0
  }

  /** `get_battery_power`, with the three file reads as inputs. */
  function GetBatteryPower(status: FileRead, current: FileRead, voltage: FileRead): (r: BatteryReading)
    ensures status.Unreadable? ==> r == BatteryReading(0.0, "Unknown")
    ensures status.Contents? ==> r.status == Strip(status.text)
    ensures status.Contents? ==>
      r.power == Watts(ReadMicro(current), ReadMicro(voltage))
  {
    match status
    case Unreadable => BatteryReading(0.0, "Unknown")
    case Contents(text) =>
      BatteryReading(Watts(ReadMicro(current), ReadMicro(voltage)), Strip(text))
  }

  /** A missing or garbled current or voltage file does not lose the
      status: the reading keeps it, with zero power. */
  lemma MissingNumberGivesZeroPower(status: string, current: FileRead, voltage: FileRead)
    requires ReadMicro(current) == 0 || ReadMicro(voltage) == 0
    ensures GetBatteryPower(Contents(status), current, voltage) == BatteryReading(0.0, Strip(status))
  {
    ZeroFactor(ReadMicro(current), ReadMicro(voltage));
  }

  lemma ZeroFactor(a: int, b: int)
    requires a == 0 || b == 0
    ensures Watts(a, b) == 0.0
  {
    assert a * b == 0;
  }

  /** The power is not an absolute value: with a positive voltage, the
      power has the sign of the current as read (negative while the current
      file holds a negative number, see ReadMicroOfNumber). */
  lemma PowerKeepsSign(status: string, current: FileRead, voltage: FileRead)
    requires ReadMicro(voltage) > 0
    ensures var r := GetBatteryPower(Contents(status), current, voltage);
      (ReadMicro(current) < 0 <==> r.power < 0.0) && (ReadMicro(current) > 0 <==> r.power > 0.0)
  {
    ProductSign(ReadMicro(current), ReadMicro(voltage));
  }

  lemma ProductSign(a: int, b: int)
    requires b > 0
    ensures (a < 0 <==> Watts(a, b) < 0.0) && (a > 0 <==> Watts(a, b) > 0.0)
  {
    if a < 0 {
      assert (-a) * b > 0;
      assert a * b < 0;
    } else if a > 0 {
      assert a * b > 0;
    } else {
      assert a * b == 0;
    }
  }
}

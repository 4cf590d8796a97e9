# Clevo fan-control monitor: the data and state core

This project models `FanMonitorApp` from `main.py`, the Tk monitor window of
clevo-fancontrol-gui, without its drawing. Each time the window refreshes, it does four things:

- It runs the Clevo fan helper and reads the CPU temperature, fan RPM and fan duty from the helper's output. The output is JSON, sometimes mixed with `wait_ec error` noise lines. When JSON decoding fails, a regular-expression scan is the fallback.
- It reads battery power and status from three sysfs files. Each file has its own fallback.
- It appends the sample to four rolling one-minute histories and rewrites the readout labels.
- It asks systemd whether `clevo-fancontrol` and `auto-cpufreq` are running, and asks RyzenAdj for the current power limits. From those answers it enables or disables the Start/Stop buttons and the three power-profile buttons.

The three "apply profile" buttons run fixed RyzenAdj argument lists. The service Start/Stop buttons run fixed `systemctl` argument lists.

External programs, files, the clock and the JSON decoder are inputs to the model.

- A process outcome is `Process.Run`. It is either `Raised`, meaning the call threw, or `Exited(code, stdout)`.
- A file read is `Battery.FileRead`.
- The decoder is a function `string -> Json`. Its result is one of three cases:
  - `Malformed`: the `JSONDecodeError` path.
  - `NotAnObject`: a decoded value without `.get`, or any other exception from the decoder. The outer handler turns either into zeros.
  - `Object(map<string, int>)`.

The modules follow the program's structure:

| module | what it covers |
|---|---|
| `Text` | The Python string operations the monitor uses: `strip()`, `split('\n')`, `'\n'.join`, `in`, `int()` and `str()`. |
| `Search` | The left-to-right scan of `re.search`. |
| `Sensor` | `get_sensor_values`. |
| `Battery` | `get_battery_power`. |
| `History` | The `deque(maxlen=60)` histories. A `Window<T>` is a class whose `items` is the deque. Its ghost `appended` holds every value ever appended. |
| `Profile` | The RyzenAdj limits, the classifier and the `apply_*_mode` argument lists. |
| `Services` | The systemd status sections. |
| `Panel` | The widgets changed by `update_service_statuses`, as class `ControlPanel`. |
| `Monitor` | `__init__` and `update_data`, as class `FanMonitor`. |

In these places the model follows `main.py` as written:

- No sanity bound is applied to temperature or RPM on either path. `Sensor.FallbackIsUnbounded` and `Sensor.FallbackRpmIsUnbounded` show this for the regex fallback, and `Sensor.JsonIsUnbounded` for the JSON path.
- Only the fast limit decides the profile (`Profile.ProfileIgnoresSlow`). The STAPM limit is never read.
- Battery power is not an absolute value (`Battery.PowerKeepsSign`).
- A failed RyzenAdj read leaves the profile label and buttons as they were. It does not reset them to an "Unknown" profile.
- A missing status file makes the whole battery reading `(0, "Unknown")`. A missing battery directory does the same.

## Model

| member | source | states |
|---|---|---|
| Text.Strip | main.py:381 | `str.strip()`: the result is the slice of the input that starts after the leading whitespace. Everything around it is whitespace, and neither end of it is whitespace. |
| Text.StripPadded | main.py:501 | Stripping a trimmed word padded with whitespace gives back exactly that word. |
| Text.StripIdempotent | main.py:409 | Stripping twice is the same as stripping once. |
| Text.Split | main.py:383 | `split('\n')` returns at least one line, and no line contains a newline. |
| Text.Join | main.py:385 | `'\n'.join`, specified by `Text.JoinSplit` and `Text.SplitJoin`: it is the inverse of `split('\n')`. |
| Text.JoinSplit | main.py:383-385 | Joining the lines of a split with `'\n'` gives back the original text. |
| Text.SplitJoin | main.py:383-385 | Splitting a join of newline-free lines gives back those lines. |
| Text.JoinAvoids | main.py:384-385 | A newline-free pattern that occurs in no line does not occur in their join. |
| Text.NatToString | main.py:444 | `str(n)` for `n >= 0`: ASCII digits with no leading zero, whose decimal value is `n`. |
| Text.IntToString | main.py:444 | `str(n)` for any integer: a leading `-` exactly when `n` is negative, otherwise only digits. `Text.ParseIntOfString` reads it back. |
| Text.ParseInt | main.py:413-419 | `int()` on a stripped string: an optional sign and digits, single underscores allowed between digits; `None` where Python raises. Specified by `Text.ParseIntOfString` and `Text.ParseIntRejectsEmpty`. |
| Text.ParseIntOfString | main.py:413 | `int(str(n)) == n` for every integer `n`, with no limit on the number of digits. |
| Text.ParseIntRejectsEmpty | main.py:413-415 | `int()` rejects the empty string and a lone sign. |
| Search.LeftmostIsFirst | main.py:391-393 | The scan yields `v` if and only if some position matches with `v` and no earlier position matches. |
| Search.LeftmostNone | main.py:395-397 | The scan yields nothing if and only if no position matches. |
| Sensor.KeepLines | main.py:384 | The kept lines contain no `wait_ec error`. Every kept line is an original line. Every original line without the marker is kept. |
| Sensor.KeepLinesAppend | main.py:384 | Filtering distributes over concatenation, so the original order is kept. |
| Sensor.KeepLinesIdempotent | main.py:384 | Filtering a second time removes nothing. |
| Sensor.Clean | main.py:383-385 | Split into lines, drop every line containing `wait_ec error`, join with newlines. Specified by `Sensor.CleanSpec` and `Sensor.CleanIdempotent`. |
| Sensor.CleanSpec | main.py:383-385 | The marker occurs neither in the cleaned text nor in any of its lines. The lines of the cleaned text are exactly the original lines without the marker, in order. If every line was dropped, the cleaned text is empty. |
| Sensor.CleanIdempotent | main.py:383-385 | Cleaning cleaned text changes nothing. |
| Sensor.FallbackField | main.py:391-397 | `re.search(r'"<name>":\s*(\d+)', output)` converted with `int`. Its result is the match at the first position where the pattern matches, as `Search.LeftmostIsFirst` states; `Sensor.FallbackFieldAbsent` and `Sensor.FallbackReadsFirstField` state it for this pattern. |
| Sensor.FallbackFieldAbsent | main.py:391-397 | A field whose `"<name>":` never occurs in the output is not found. |
| Sensor.FallbackReadsFirstField | main.py:391-397 | Suppose `"<name>":` does not occur before a given occurrence of it, and that occurrence is followed by whitespace and digits. Other quoted names, such as the keys before `rpms` in the helper's JSON, may come first. Then the field is the value of those digits. |
| Sensor.Fallback | main.py:391-399 | Every fallback field is at least 0. A field whose quoted name is absent is 0. |
| Sensor.FromObject | main.py:401 | `data.get(key, 0)` for the three keys: a present member is returned as it is, an absent one is 0. |
| Sensor.GetSensorValues | main.py:374-403 | The result is `(0, 0, 0)` when the helper raised or exited non-zero, or when the decoded value is not an object. For a decoded object it is the three members, with 0 for each absent one. For undecodable text it is the regex fallback over the stripped, uncleaned output. |
| Sensor.FallbackIsUnbounded | main.py:391-399 | On the fallback path, any temperature comes back unchanged; no bound is applied. |
| Sensor.FallbackRpmIsUnbounded | main.py:391-399 | On the fallback path, any fan speed comes back unchanged; no bound is applied. |
| Sensor.JsonIsUnbounded | main.py:388-401 | On the JSON path, the object's integers come back unchanged; no bound is applied. |
| Sensor.CleanDropsNoiseLine | main.py:383-385 | A payload line followed by a noise line cleans to the payload line. |
| Sensor.StripNoisyOutput | main.py:381 | `strip()` on the helper's output removes only the final newline. |
| Sensor.JsonThenNoise | main.py:379-401 | If the helper prints a JSON line and then a `wait_ec error` line, the reading is what the decoder makes of the JSON line alone. |
| Battery.ReadMicro | main.py:411-421 | An unreadable file gives 0. A file whose stripped text is not an integer gives 0. |
| Battery.ReadMicroOfNumber | main.py:411-421 | A file holding an integer surrounded by whitespace reads as that integer. |
| Battery.Watts | main.py:423 | `(current_ua / 1e6) * (voltage_uv / 1e6)`, exactly. `Battery.ZeroFactor` and `Battery.ProductSign` give its zero and sign. |
| Battery.GetBatteryPower | main.py:405-426 | An unreadable status file gives `(0, "Unknown")`. Otherwise the result is the stripped status, with power equal to current times voltage, each scaled down by 10^6. |
| Battery.MissingNumberGivesZeroPower | main.py:411-423 | An unreadable or garbled current or voltage file gives zero power and keeps the status. |
| Battery.PowerKeepsSign | main.py:423 | With a positive voltage, power is negative exactly when the current is negative and positive exactly when the current is positive. No absolute value is taken. |
| History.LastN | main.py:41-44 | The last `n` elements, in order. The length is that of `s` or `n`, whichever is smaller. |
| History.LastNAppend | main.py:437-440 | Truncating to `n` after every append keeps exactly the last `n` values ever appended. |
| History.FullWindowShifts | main.py:437-440 | Appending to a full window drops the oldest element and keeps the rest in order. |
| History.SeededWindow | main.py:48-52 | A window seeded with 60 values holds the last 60 samples once 60 samples have arrived. Before that, it holds the seeds not yet pushed out, followed by every sample. |
| History.Window.constructor | main.py:41-44 | `deque(maxlen=60)`: an empty deque with the given bound, to which nothing has been appended yet. |
| History.Window.Append | main.py:437-440 | `deque.append`. The deque stays the last `maxlen` values appended. Below `maxlen` it grows by `x`. When full, it drops its first element. |
| History.MonitorHistory.constructor | main.py:41-52 | Four fresh deques of 60 entries each. Temperature, RPM and power are all zero. Entry `k` of the time history is `now - (60 - k)`. |
| History.MonitorHistory.Record | main.py:437-440 | One append to each of the four histories. |
| Profile.ExtractLimit | main.py:539-540 | `re.search` for the label, whitespace, a pipe, whitespace and `(\d+\.\d+)`, converted with `float`: the match at the first position where the pattern matches, as `Search.LeftmostIsFirst` states; `Profile.ExtractLimitReadsRow` states it for a table row. |
| Profile.ExtractLimitReadsRow | main.py:539-544 | Suppose the row is the label, whitespace, a pipe, whitespace and `<whole>.<frac>`, and the label does not occur anywhere before the row. Earlier rows, such as `STAPM LIMIT`, and the header may come first. Then the extraction yields that decimal. |
| Profile.Classify | main.py:546-560 | Battery if and only if fast ≤ 15. Quiet if and only if 15 < fast ≤ 22. Performance if and only if fast > 22. |
| Profile.ClassifyMonotone | main.py:546-560 | A higher fast limit never gives a lower profile. |
| Profile.ProfileButtons | main.py:546-560 | The button of the given profile is disabled and the other two are enabled. |
| Profile.ExactlyOneDisabled | main.py:546-560 | Exactly one of the three profile buttons is disabled. |
| Profile.ReadProfile | main.py:534-565 | `None` if and only if the call raised, exited non-zero, or either limit is missing. Otherwise it gives both limits and `Classify(fast)`. |
| Profile.ProfileIgnoresSlow | main.py:546-560 | Two readings with the same fast limit give the same profile, whatever their slow limits. |
| Profile.ApplyCommand | main.py:601-623 | Every argument list is `pkexec /usr/bin/ryzenadj` followed by three flags. |
| Profile.ApplyCommandCarriesSettings | main.py:601-623 | The slow-limit, fast-limit and tctl-temp arguments of each list parse back to that profile's settings: (8000, 12000, 80), (15000, 20000, 90) and (20000, 30000, 98). |
| Profile.FlagCarries | main.py:603-604 | A flag followed by the decimal spelling of `n` parses back to `n`. |
| Profile.AppliedProfileIsRecognised | main.py:601-623 | Read back in watts, the fast limit a profile applies is classified as that same profile. |
| Profile.SettingsIncrease | main.py:601-623 | Battery < Quiet < Performance on every setting. |
| Services.StatusQuery | main.py:498-499 | The status query names the section's unit. |
| Services.ControlCommand | main.py:573-599 | Start is `pkexec systemctl start <unit>` and Stop is `pkexec systemctl stop <unit>`. |
| Services.ControlsQueriedUnit | main.py:573-599 | Start, Stop and the status query all address the same unit. |
| Services.IsActive | main.py:497-512 | `None` if and only if the query raised. Otherwise the result is whether the stripped stdout equals `active`. |
| Services.ActiveWithWhitespace | main.py:501 | `active` surrounded by whitespace counts as running, whatever the exit status. |
| Services.OtherWordIsStopped | main.py:501 | Any other trimmed word, such as `inactive`, counts as stopped. |
| Services.ExitCodeIgnored | main.py:499-501 | The exit status does not affect the result. |
| Services.InitialView | main.py:180-216 | As built, both buttons are enabled and the label has the default colour. |
| Services.StatusLabel | main.py:503-509 | The label is the service name followed by `: ✅ Running` in blue when running, or by `: ❌ Stopped` in red when stopped. |
| Services.ActiveView | main.py:502-511 | Start is disabled if and only if the unit is running. Stop is disabled if and only if it is not. |
| Services.CheckedButtonsDiffer | main.py:502-511 | After a check, Start and Stop are never in the same state. |
| Services.StatusTextsDiffer | main.py:503-509 | The running label and the stopped label differ. |
| Services.Refresh | main.py:497-513 | A raised query leaves the section unchanged. Otherwise the section shows the stripped-stdout test. |
| Panel.ControlPanel.constructor | main.py:180-243 | Both service sections as built, profile label unknown, all three profile buttons enabled. Establishes `Valid()`. |
| Panel.ControlPanel.UpdateServiceStatuses | main.py:495-565 | Each section becomes `Refresh` of its query. The profile card is left unchanged when `ReadProfile` fails. Otherwise it shows the read profile with exactly its button disabled. Keeps `Valid()`: each section is as built or as a check left it, and the profile shown matches its fast limit and its buttons. |
| Panel.ControlPanel.CheckClevo | main.py:497-513 | The Clevo section becomes `Refresh` of the query. Everything else is unchanged. |
| Panel.ControlPanel.CheckCpufreq | main.py:515-531 | The Auto-CPUFreq section becomes `Refresh` of the query. Everything else is unchanged. |
| Panel.ControlPanel.CheckProfile | main.py:533-565 | The threshold chain written out step by step agrees with `ReadProfile` and `ProfileButtons`. Nothing changes on failure. |
| Panel.SettledButtons | main.py:502-529 | In a section, Start and Stop are equal only as built, and at least one of them is always enabled. |
| Panel.ValidPanelButtons | main.py:495-565 | On any panel that `Valid()` describes, and so after every `update_service_statuses`: in each section at least one of Start and Stop is enabled, and they are equal only as built; exactly one profile button is disabled while a profile is shown, none before. |
| Panel.AtMostOneProfileDisabled | main.py:546-565 | One profile button is disabled when a profile is shown, and none otherwise. |
| Monitor.Band | main.py:443-449 | The three colour bands, as if-and-only-if conditions on the two thresholds. |
| Monitor.BandMonotone | main.py:443-449 | A higher reading never falls in a lower band. |
| Monitor.TempColor | main.py:443 | Red above 80, amber above 60, blue otherwise. |
| Monitor.RpmColor | main.py:446 | Red above 4000, amber above 2000, violet otherwise. |
| Monitor.PowerColor | main.py:449 | Red above 30 W, amber above 20 W, cyan otherwise, including every negative power. |
| Monitor.StatusIcon | main.py:452-453 | `Discharging` gets `🔋`, `Charging` gets `⚡`, `Full` gets `✅`, and any other status gets `❓`. |
| Monitor.TempTextReadsBack | main.py:444 | The number in `CPU: <t>°C` parses back to `t`. |
| Monitor.TempText | main.py:444 | The temperature label starts with `CPU: `; `Monitor.TempTextReadsBack` reads the number back. |
| Monitor.RpmText | main.py:447 | The fan label starts with `FAN: `; `Monitor.RpmTextReadsBack` reads the RPM and the duty back. |
| Monitor.RpmTextReadsBack | main.py:447 | In `FAN: <rpm> RPM (<duty>%)` the number after `FAN: ` parses back to the RPM, and the number before `%)` parses back to the duty. |
| Monitor.BatteryText | main.py:454 | The battery label starts with `STATUS: `; `Monitor.BatteryTextEndsWithStatus` shows it ends with the status. |
| Monitor.BatteryTextEndsWithStatus | main.py:454 | The battery label ends with the status word. |
| Monitor.FanMonitor.constructor | main.py:41-67 | Four histories of 60 seeds: zeros, and time stamps `now - (60 - k)`. The panel as `create_ui` builds it: both sections as built, profile unknown, all profile buttons enabled. RPM 0 and the placeholder readout labels. |
| Monitor.FanMonitor.UpdateData | main.py:428-461 | One refresh. The sample from `GetSensorValues` and `GetBatteryPower` goes into all four histories, the readouts and `current_rpm`. Then each section and the profile card update as in `UpdateServiceStatuses`. |
| Monitor.FanMonitor.ShowSample | main.py:434-454 | The sample is appended to every history and written into every readout. |
| Monitor.FanMonitor.ShowReadouts | main.py:443-454 | Each label gets its text and colour band. |
| Monitor.FailedSensorReadsAsZero | main.py:402-403 | A failed sensor call records a zero sample, not the previous one. |

## Left out

- Drawing is not modelled. This covers widget layout (main.py:111-276), matplotlib graphs (main.py:278-372), the fan image and its animation (main.py:70-109, 465-493), `create_fan_image.py` and the colours of buttons that never change.
- Processes and dialogs are inputs, not modelled. The model does not run `subprocess`, `sudo`, `pkexec` or `systemctl`, and does not show `messagebox` dialogs. The argument lists are modelled. Process outcomes enter as `Run` values. The success and error dialogs of the Start, Stop and apply buttons are not modelled; they ignore the exit status anyway.
- Scheduling is not modelled. The `root.after` timers, and the clock beyond the `now` inputs, are not modelled.
- The JSON decoder is abstract. Object members that are not integers, such as floats, strings or nested values, are not modelled.
- Text.IsDigit: the regex `\d` and `int()` also accept non-ASCII Unicode digits; the model accepts ASCII digits only.
- Profile.DecimalValue: `float()` on the matched limit is an exact rational here; binary64 rounding is not modelled. Only comparisons with 15 and 22 use it.
- Battery.Watts: the division and multiplication are exact here, not floating point.
- Battery.GetBatteryPower: a current or voltage above about 1.8e308 makes `current_ua / 1000000.0` raise `OverflowError`, which the outer handler turns into `(0, "Unknown")`. The model returns the exact product and the status instead.
- Text.ParseInt: Python 3.11 and later, and patched 3.7 to 3.10, refuse to convert a digit string longer than 4300 digits and raise `ValueError`. The model parses digit strings of any length. At main.py:413 and 419 such a file would read as 0, and at main.py:395-397 the whole sensor reading would become `(0, 0, 0)`.
- Text.ParseIntOfString: holds here for every integer; under the 4300-digit limit above, Python only reads back integers of at most 4300 digits.
- Sensor.FallbackReadsFirstField: the digits are read whatever their number; with the 4300-digit limit, Python would give `(0, 0, 0)` for a longer run.
- Sensor.FallbackIsUnbounded: the same digit limit applies; the lemma covers temperatures of any length.
- Sensor.FallbackRpmIsUnbounded: the same digit limit applies; the lemma covers fan speeds of any length.
- Battery.ReadMicroOfNumber: the same digit limit applies; Python would read a file of more than 4300 digits as 0.
- Monitor.FanMonitor.ShowReadouts: the text of the power label (`{power_w:.2f}`) is not modelled, only its colour. The `{fast:.0f}W/{slow:.0f}W` part of the profile label is held as the two reals, not as formatted text.
- `test_gui.py` and `debug_output.py` are not part of this model. The first feeds random values to the same widgets; the second only prints raw process output.

/** The two systemd services the monitor watches and controls: the Clevo
    fan daemon and auto-cpufreq. Each has a status label and a Start/Stop
    button pair; `systemctl is-active <unit>` decides what they show. */
module Services {
  import opened Wrappers
  import opened Text
  import opened Process
  import opened Widgets

  datatype Service = ClevoFanControl | AutoCpuFreq

  /** The systemd unit behind each section. */
  function Unit(s: Service): string {
    match s
    case ClevoFanControl => "clevo-fancontrol"
    case AutoCpuFreq => "auto-cpufreq"
  }

  /** The name the section's label starts with. */
  function DisplayName(s: Service): string {
    match s
    case ClevoFanControl => "Clevo Fan Control"
    case AutoCpuFreq => "Auto-CPUFreq"
  }

  /** What `systemctl is-active` prints for a running unit. */
  const ActiveWord := "active"

  const RunningColor := "#74c0fc"
  const StoppedColor := "#ff6b6b"

  /** A label's text and its colour; `None` is the theme's default colour,
      which the label keeps until the first successful status check. */
  datatype Label = Label(text: string, color: Option<string>)

  /** One service section: the status label and the Start and Stop buttons. */
  datatype ServiceView = ServiceView(status: Label, start: ButtonState, stop: ButtonState)

  /** The argument list of the status query. */
  function StatusQuery(s: Service): (argv: seq<string>)
    ensures |argv| == 3 && argv[2] == Unit(s)
  {
    ["systemctl", "is-active", Unit(s)]
  }

  /** The argument lists of the Start and Stop buttons' handlers. */
  function ControlCommand(s: Service, start: bool): (argv: seq<string>)
    ensures |argv| == 4 && argv[0] == "pkexec" && argv[1] == "systemctl"
    ensures argv[2] == (if start then "start" else "stop")
  {
    ["pkexec", "systemctl", if start then "start" else "stop", Unit(s)]
  }

  /** Start, Stop and the status query all address the same unit. */
  lemma ControlsQueriedUnit(s: Service, start: bool)
    ensures ControlCommand(s, start)[3] == StatusQuery(s)[2] == Unit(s)
  {
  }

  /** `result.stdout.strip() == "active"`: `None` when `subprocess.run`
      raised (the `except: pass`). The exit status is not looked at. */
  function IsActive(run: Run): (r: Option<bool>)
    ensures r.None? <==> run.Raised?
    ensures r.Some? ==> (r.value <==> Strip(run.stdout) == ActiveWord)
  {
    match run
    case Raised => None
    case Exited(_, stdout) => Some(Strip(stdout) == ActiveWord)
  }

  /** `active` surrounded by whitespace (systemctl ends it with a newline)
      counts as running, whatever the exit status. */
  lemma ActiveWithWhitespace(code: int, pre: string, post: string)
    requires AllSpace(pre) && AllSpace(post)
    ensures IsActive(Exited(code, pre + ActiveWord + post)) == Some(true)
  {
    StripPadded(pre, ActiveWord, post);
  }

  /** Any other word, `inactive`, `failed` or `activating` among them,
      counts as stopped. */
  lemma OtherWordIsStopped(code: int, pre: string, word: string, post: string)
    requires AllSpace(pre) && AllSpace(post) && Trimmed(word) && word != ActiveWord
    ensures IsActive(Exited(code, pre + word + post)) == Some(false)
  {
    StripPadded(pre, word, post);
  }

  /** `systemctl is-active` exits 3 for a stopped unit; that is not taken
      as a failure: only the printed word matters. */
  lemma ExitCodeIgnored(code1: int, code2: int, stdout: string)
    ensures IsActive(Exited(code1, stdout)) == IsActive(Exited(code2, stdout))
  {
  }

  /** The section as built in `create_ui`, before any status check. */
  function InitialView(s: Service): (v: ServiceView)
    ensures v.start == Normal && v.stop == Normal && v.status.color.None?
  {
    ServiceView(Label(DisplayName(s) + ": Unknown", None), Normal, Normal)
  }

  /** The status label after a check that found the unit running or not. */
  function StatusLabel(s: Service, active: bool): (l: Label)
    ensures l.color == Some(if active then RunningColor else StoppedColor)
    ensures DisplayName(s) <= l.text
    ensures l.text[|DisplayName(s)|..] == if active then ": ✅ Running" else ": ❌ Stopped"
  {
    if active then Label(DisplayName(s) + ": ✅ Running", Some(RunningColor))
    else Label(DisplayName(s) + ": ❌ Stopped", Some(StoppedColor))
  }

  /** The section after a status check that found the unit running or not:
      the label says so, and of Start and Stop exactly the one that would
      not change anything is disabled. */
  function ActiveView(s: Service, active: bool): (v: ServiceView)
    ensures v.start == Disabled <==> active
    ensures v.stop == Disabled <==> !active
    ensures v.status == StatusLabel(s, active)
  {
    if active then ServiceView(StatusLabel(s, true), Disabled, Normal)
    else ServiceView(StatusLabel(s, false), Normal, Disabled)
  }

  /** After a status check, Start and Stop are never in the same state. */
  lemma CheckedButtonsDiffer(s: Service, active: bool)
    ensures ActiveView(s, active).start != ActiveView(s, active).stop
  {
  }

  /** The running and stopped labels can be told apart. */
  lemma StatusTextsDiffer(s: Service)
    ensures StatusLabel(s, true).text != StatusLabel(s, false).text
  {
    var n := |DisplayName(s)|;
    assert StatusLabel(s, true).text[n + 2] == '✅';
    assert StatusLabel(s, false).text[n + 2] == '❌';
  }

  /** One service's block of `update_service_statuses`: a failed query
      leaves the section as it was; otherwise it shows what the query said. */
  function Refresh(s: Service, view: ServiceView, run: Run): (v: ServiceView)
    ensures run.Raised? ==> v == view
    ensures run.Exited? ==> v == ActiveView(s, Strip(run.stdout) == ActiveWord)
  {
    match IsActive(run)
    case None => view
    case Some(active) => ActiveView(s, active)
  }
}

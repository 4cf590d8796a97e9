/** The RyzenAdj side of the monitor: reading the current power limits out
    of `sudo ryzenadj --info`, naming the profile they belong to, which of
    the three profile buttons that disables, and the fixed argument lists
    that `apply_battery_mode`, `apply_quiet_mode` and `apply_ac_mode` pass to
    `pkexec /usr/bin/ryzenadj`. */
module Profile {
  import opened Wrappers
  import opened Text
  import opened Process
  import opened Widgets
  import Search

  datatype PowerProfile = Battery | Quiet | Performance

  /** What one successful `--info` read yields: the classified profile and
      the two limits it displays, in watts. */
  datatype LimitsReading = LimitsReading(profile: PowerProfile, fast: real, slow: real)

  const FastLabel := "PPT LIMIT FAST"
  const SlowLabel := "PPT LIMIT SLOW"

  // ---------------------------------------------------------------------
  // Extraction
  // ---------------------------------------------------------------------

  function Pow10(n: nat): (p: nat)
    ensures p >= 1
  {
    if n == 0 then 1 else 10 * Pow10(n - 1)
  }

  /** `float("<whole>.<frac>")`, as an exact decimal. */
  function DecimalValue(whole: string, frac: string): real
    requires AllDigits(whole) && AllDigits(frac)
  {
    DigitsValue(whole) as real + DigitsValue(frac) as real / Pow10(|frac|) as real
  }

  /** `(\d+\.\d+)` at the start of `c`: greedy digits, a dot, greedy
      digits. The first run is followed by the dot, not a digit, so it never
      gives anything back. */
  function NumberAt(c: string): Option<real> {
    var whole := Span(c, IsDigit);
    if whole == 0 || whole == |c| || c[whole] != '.' then None
    else
      var d := c[whole + 1..];
      var frac := Span(d, IsDigit);
      if frac == 0 then None
      else Some(DecimalValue(c[..whole], d[..frac]))
  }

  /** `\s+\|\s+(\d+\.\d+)` at the start of `a`, the part of a table row
      after its heading. */
  function CellAt(a: string): Option<real> {
    var gap1 := Span(a, IsSpace);
    if gap1 == 0 || gap1 == |a| || a[gap1] != '|' then None
    else
      var b := a[gap1 + 1..];
      var gap2 := Span(b, IsSpace);
      if gap2 == 0 then None else NumberAt(b[gap2..])
  }

  /** The pattern `<label>\s+\|\s+(\d+\.\d+)` tried at position `i` of `s`. */
  function LimitAt(s: string, heading: string, i: nat): Option<real> {
    if i + |heading| <= |s| && s[i..i + |heading|] == heading then CellAt(s[i + |heading|..])
    else None
  }

  /** The pattern for `heading`, as a function of the start position. */
  function LimitPattern(s: string, heading: string): nat -> Option<real> {
    (i: nat) => LimitAt(s, heading, i)
  }

  /** `re.search(r'<label>\s+\|\s+(\d+\.\d+)', s)`, converted with `float`. */
  function ExtractLimit(s: string, heading: string): Option<real> {
    Search.Leftmost(LimitPattern(s, heading), 0, |s|)
  }

  /** A number `<whole>.<frac>` followed by a non-digit reads as its value. */
  lemma NumberAtReads(whole: string, frac: string, post: string)
    requires whole != [] && AllDigits(whole) && frac != [] && AllDigits(frac)
    requires post == [] || !IsDigit(post[0])
    ensures NumberAt(whole + "." + frac + post) == Some(DecimalValue(whole, frac))
  {
    var d := frac + post;
    assert d[0] == frac[0];
    SpanUnique(d, IsDigit, |frac|);
    assert d[..|frac|] == frac;
    var c := whole + "." + d;
    assert c == whole + "." + frac + post;
    assert c[|whole|] == '.';
    SpanUnique(c, IsDigit, |whole|);
    assert c[..|whole|] == whole;
    assert c[|whole| + 1..] == d;
  }

  /** Whitespace, a bar and whitespace before a cell that starts with a
      non-space character are skipped exactly. */
  lemma CellAtReads(ws1: string, ws2: string, c: string)
    requires ws1 != [] && AllSpace(ws1) && ws2 != [] && AllSpace(ws2)
    requires c != [] && !IsSpace(c[0])
    ensures CellAt(ws1 + "|" + ws2 + c) == NumberAt(c)
  {
    var b := ws2 + c;
    assert b[|ws2|] == c[0];
    SpanUnique(b, IsSpace, |ws2|);
    assert b[|ws2|..] == c;
    var a := ws1 + "|" + b;
    assert a == ws1 + "|" + ws2 + c;
    assert a[|ws1|] == '|';
    SpanUnique(a, IsSpace, |ws1|);
    assert a[|ws1| + 1..] == b;
  }

  /** No position where the heading does not occur starts a match. */
  lemma NoLimitBeforeHeading(pre: string, heading: string, tail: string)
    requires forall j: nat :: j < |pre| ==> !OccursAt(pre + heading + tail, heading, j)
    ensures forall j: nat :: j < |pre| ==> LimitAt(pre + heading + tail, heading, j).None?
  {
    var s := pre + heading + tail;
    forall j: nat | j < |pre| ensures LimitAt(s, heading, j).None? {
      assert !OccursAt(s, heading, j);
    }
  }

  /** A heading followed by `tail` is matched there, and read from `tail`. */
  lemma LimitAtHeading(pre: string, heading: string, tail: string)
    ensures LimitAt(pre + heading + tail, heading, |pre|) == CellAt(tail)
  {
    var s := pre + heading + tail;
    assert s[|pre|..|pre| + |heading|] == heading;
    assert s[|pre| + |heading|..] == tail;
  }

  /** The leftmost match of the pattern when no earlier position matches. */
  lemma ExtractLimitAt(pre: string, heading: string, tail: string, v: real)
    requires forall j: nat :: j < |pre| ==> !OccursAt(pre + heading + tail, heading, j)
    requires CellAt(tail) == Some(v)
    ensures ExtractLimit(pre + heading + tail, heading) == Some(v)
  {
    var s := pre + heading + tail;
    var m := LimitPattern(s, heading);
    NoLimitBeforeHeading(pre, heading, tail);
    LimitAtHeading(pre, heading, tail);
    assert forall j: nat :: 0 <= j < |pre| ==> m(j).None?;
    Search.LeftmostAt(m, 0, |s|, |pre|);
  }

  /** A table row `<label> | <whole>.<frac> ...` is read as that number
      when the label does not start anywhere before the row; other rows,
      such as `STAPM LIMIT`, may come first. */
  lemma ExtractLimitReadsRow(pre: string, heading: string, ws1: string, ws2: string,
                             whole: string, frac: string, post: string)
    requires forall j: nat :: j < |pre| ==>
      !OccursAt(pre + heading + ws1 + "|" + ws2 + whole + "." + frac + post, heading, j)
    requires ws1 != [] && AllSpace(ws1) && ws2 != [] && AllSpace(ws2)
    requires whole != [] && AllDigits(whole) && frac != [] && AllDigits(frac)
    requires post == [] || !IsDigit(post[0])
    ensures ExtractLimit(pre + heading + ws1 + "|" + ws2 + whole + "." + frac + post, heading)
         == Some(DecimalValue(whole, frac))
  {
    var c := whole + "." + frac + post;
    var tail := ws1 + "|" + ws2 + c;
    assert pre + heading + tail == pre + heading + ws1 + "|" + ws2 + whole + "." + frac + post;
    assert c[0] == whole[0];
    NumberAtReads(whole, frac, post);
    CellAtReads(ws1, ws2, c);
    ExtractLimitAt(pre, heading, tail, DecimalValue(whole, frac));
  }

  // ---------------------------------------------------------------------
  // Classification
  // ---------------------------------------------------------------------

  /** The threshold chain of `update_service_statuses`: only the fast limit
      (in watts) is compared. */
  function Classify(fast: real): (p: PowerProfile)
    ensures p == Battery <==> fast <= 15.0
    ensures p == Quiet <==> 15.0 < fast <= 22.0
    ensures p == Performance <==> 22.0 < fast
  {
    if fast <= 15.0 then Battery else if fast <= 22.0 then Quiet else Performance
  }

  /** The classification never goes down as the fast limit goes up. */
  lemma ClassifyMonotone(f1: real, f2: real)
    requires f1 <= f2
    ensures Rank(Classify(f1)) <= Rank(Classify(f2))
  {
  }

  function Rank(p: PowerProfile): nat {
    match p
    case Battery => 0
    case Quiet => 1
    case Performance => 2
  }

  /** States of the (battery, quiet, performance) buttons for a profile: the
      button of the active profile is disabled, the other two are not. */
  function ProfileButtons(p: PowerProfile): (r: (ButtonState, ButtonState, ButtonState))
    ensures r.0 == Disabled <==> p == Battery
    ensures r.1 == Disabled <==> p == Quiet
    ensures r.2 == Disabled <==> p == Performance
  {
    match p
    case Battery => (Disabled, Normal, Normal)
    case Quiet => (Normal, Disabled, Normal)
    case Performance => (Normal, Normal, Disabled)
  }

  /** Exactly one profile button is disabled. */
  lemma ExactlyOneDisabled(p: PowerProfile)
    ensures var r := ProfileButtons(p);
      (if r.0 == Disabled then 1 else 0) + (if r.1 == Disabled then 1 else 0)
        + (if r.2 == Disabled then 1 else 0) == 1
  {
  }

  /** The RyzenAdj branch up to the widget updates: `None` when the call
      raised, exited non-zero, or either limit is missing from its output
      (the widgets are then left alone); otherwise the profile of the fast
      limit, with both limits. */
  function ReadProfile(run: Run): (r: Option<LimitsReading>)
    ensures r.None? <==>
      run.Raised? || run.code != 0
      || ExtractLimit(run.stdout, FastLabel).None? || ExtractLimit(run.stdout, SlowLabel).None?
    ensures r.Some? ==>
      && r.value.fast == ExtractLimit(run.stdout, FastLabel).value
      && r.value.slow == ExtractLimit(run.stdout, SlowLabel).value
      && r.value.profile == Classify(r.value.fast)
  {
    match run
    case Raised => None
    case Exited(code, stdout) =>
      if code != 0 then None
      else
        match (ExtractLimit(stdout, FastLabel), ExtractLimit(stdout, SlowLabel))
        case (Some(fast), Some(slow)) => Some(LimitsReading(Classify(fast), fast, slow))
        case _ => None
  }

  /** The slow limit plays no part in the choice of profile: two outputs
      with the same fast limit give the same profile, whatever their slow
      limits are. */
  lemma ProfileIgnoresSlow(run1: Run, run2: Run)
    requires ReadProfile(run1).Some? && ReadProfile(run2).Some?
    requires ReadProfile(run1).value.fast == ReadProfile(run2).value.fast
    ensures ReadProfile(run1).value.profile == ReadProfile(run2).value.profile
  {
  }

  // ---------------------------------------------------------------------
  // Applying a profile
  // ---------------------------------------------------------------------

  /** The numbers behind each profile's arguments: slow and fast limits in
      milliwatts and the temperature ceiling in degrees Celsius. */
  datatype ModeSettings = ModeSettings(slowMilliwatts: int, fastMilliwatts: int, tctlCelsius: int)

  function Settings(p: PowerProfile): ModeSettings {
    match p
    case Battery => ModeSettings(8000, 12000, 80)
    case Quiet => ModeSettings(15000, 20000, 90)
    case Performance => ModeSettings(20000, 30000, 98)
  }

  /** The argument list each `apply_*_mode` hands to `subprocess.run`. */
  function ApplyCommand(p: PowerProfile): (argv: seq<string>)
    ensures |argv| == 5 && argv[0] == "pkexec" && argv[1] == "/usr/bin/ryzenadj"
  {
    match p
    case Battery => ["pkexec", "/usr/bin/ryzenadj", "--slow-limit=8000", "--fast-limit=12000", "--tctl-temp=80"]
    case Quiet => ["pkexec", "/usr/bin/ryzenadj", "--slow-limit=15000", "--fast-limit=20000", "--tctl-temp=90"]
    case Performance => ["pkexec", "/usr/bin/ryzenadj", "--slow-limit=20000", "--fast-limit=30000", "--tctl-temp=98"]
  }

  /** The integer after `flag` in a `--flag=value` argument. */
  function FlagValue(arg: string, flag: string): Option<int> {
    if |flag| <= |arg| && arg[..|flag|] == flag then ParseInt(arg[|flag|..]) else None
  }

  /** Each argument list carries its profile's settings, each under its own
      flag. */
  lemma ApplyCommandCarriesSettings(p: PowerProfile)
    ensures FlagValue(ApplyCommand(p)[2], "--slow-limit=") == Some(Settings(p).slowMilliwatts)
    ensures FlagValue(ApplyCommand(p)[3], "--fast-limit=") == Some(Settings(p).fastMilliwatts)
    ensures FlagValue(ApplyCommand(p)[4], "--tctl-temp=") == Some(Settings(p).tctlCelsius)
  {
    var argv, m := ApplyCommand(p), Settings(p);
    ApplyCommandSpelled(p);
    FlagCarries(argv[2], "--slow-limit=", m.slowMilliwatts);
    FlagCarries(argv[3], "--fast-limit=", m.fastMilliwatts);
    FlagCarries(argv[4], "--tctl-temp=", m.tctlCelsius);
  }

  /** The literal arguments are the flags followed by the settings' decimal
      spellings, one lemma per flag. */
  lemma ApplyCommandSpelled(p: PowerProfile)
    ensures ApplyCommand(p)[2] == "--slow-limit=" + NatToString(Settings(p).slowMilliwatts)
    ensures ApplyCommand(p)[3] == "--fast-limit=" + NatToString(Settings(p).fastMilliwatts)
    ensures ApplyCommand(p)[4] == "--tctl-temp=" + NatToString(Settings(p).tctlCelsius)
  {
    SlowLimitSpelled(p);
    FastLimitSpelled(p);
    TctlSpelled(p);
  }

  lemma SlowLimitSpelled(p: PowerProfile)
    ensures ApplyCommand(p)[2] == "--slow-limit=" + NatToString(Settings(p).slowMilliwatts)
  {
    match p
    case Battery => Spelling8000();
    case Quiet => Spelling15000();
    case Performance => Spelling20000();
  }

  lemma FastLimitSpelled(p: PowerProfile)
    ensures ApplyCommand(p)[3] == "--fast-limit=" + NatToString(Settings(p).fastMilliwatts)
  {
    match p
    case Battery => Spelling12000();
    case Quiet => Spelling20000();
    case Performance => Spelling30000();
  }

  lemma TctlSpelled(p: PowerProfile)
    ensures ApplyCommand(p)[4] == "--tctl-temp=" + NatToString(Settings(p).tctlCelsius)
  {
    match p
    case Battery => Spelling80();
    case Quiet => Spelling90();
    case Performance => Spelling98();
  }

  // Decimal spellings of the numbers in the argument lists, digit by digit.

  lemma Spelling8000()
    ensures NatToString(8000) == "8000"
  {
    assert NatToString(80) == "80";
    assert NatToString(800) == "80" + "0";
  }

  lemma Spelling12000()
    ensures NatToString(12000) == "12000"
  {
    assert NatToString(12) == "12";
    assert NatToString(120) == "12" + "0";
    assert NatToString(1200) == "120" + "0";
  }

  lemma Spelling15000()
    ensures NatToString(15000) == "15000"
  {
    assert NatToString(15) == "15";
    assert NatToString(150) == "15" + "0";
    assert NatToString(1500) == "150" + "0";
  }

  lemma Spelling20000()
    ensures NatToString(20000) == "20000"
  {
    assert NatToString(20) == "20";
    assert NatToString(200) == "20" + "0";
    assert NatToString(2000) == "200" + "0";
  }

  lemma Spelling30000()
    ensures NatToString(30000) == "30000"
  {
    assert NatToString(30) == "30";
    assert NatToString(300) == "30" + "0";
    assert NatToString(3000) == "300" + "0";
  }

  lemma Spelling80()
    ensures NatToString(80) == "80"
  {
  }

  lemma Spelling90()
    ensures NatToString(90) == "90"
  {
  }

  lemma Spelling98()
    ensures NatToString(98) == "98"
  {
  }

  /** `flag` followed by the decimal spelling of `n` carries `n`. */
  lemma FlagCarries(arg: string, flag: string, n: nat)
    requires arg == flag + NatToString(n)
    ensures FlagValue(arg, flag) == Some(n)
  {
    assert arg[..|flag|] == flag;
    assert arg[|flag|..] == NatToString(n) == IntToString(n);
    ParseIntOfString(n);
  }

  /** Applying a profile and reading it back agree: once RyzenAdj reports
      the applied fast limit (milliwatts shown as watts), the classifier
      names the profile that was applied. */
  lemma AppliedProfileIsRecognised(p: PowerProfile)
    ensures Classify(Settings(p).fastMilliwatts as real / 1000.0) == p
  {
  }

  /** The profiles are ordered: each one raises every setting of the one
      below it. */
  lemma SettingsIncrease()
    ensures Settings(Battery).slowMilliwatts < Settings(Quiet).slowMilliwatts < Settings(Performance).slowMilliwatts
    ensures Settings(Battery).fastMilliwatts < Settings(Quiet).fastMilliwatts < Settings(Performance).fastMilliwatts
    ensures Settings(Battery).tctlCelsius < Settings(Quiet).tctlCelsius < Settings(Performance).tctlCelsius
  {
  }
}

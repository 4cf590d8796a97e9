/** `FanMonitorApp.get_sensor_values`: turns the output of
    `sudo /usr/local/bin/clevo-fancontrol` into a (temperature, RPM, duty)
    triple. Lines carrying the embedded controller's `wait_ec error`
    diagnostic are dropped before a JSON decode; when the decode fails, each
    field is searched for in the uncleaned output with a regular expression;
    any other failure gives three zeros. No bound is applied to any value. */
module Sensor {
  import opened Wrappers
  import opened Text
  import opened Process
  import Search

  /** (cpu_temp_cels, rpms, duty) as the method returns them. */
  datatype Reading = Reading(temp: int, rpm: int, duty: int)

  /** What every failure path returns. */
  const Zero := Reading(0, 0, 0)

  /** The diagnostic the fan-control helper interleaves with its JSON. */
  const NoiseMarker := "wait_ec error"

  /** What `json.loads` does with the cleaned text. The decoder is library
      code and is a parameter of the model.
      `Malformed`: it raised `json.JSONDecodeError` (regex fallback follows).
      `NotAnObject`: it produced a value without `.get` (a list, a number,
      null), or raised anything else; both end in the outer `except`.
      `Object`: a JSON object, with its integer members. */
  datatype Json = Malformed | NotAnObject | Object(members: map<string, int>)

  // ---------------------------------------------------------------------
  // Cleaning
  // ---------------------------------------------------------------------

  /** The lines that do not contain the marker, in their original order. */
  function KeepLines(lines: seq<string>): (kept: seq<string>)
    ensures |kept| <= |lines|
    ensures forall k :: 0 <= k < |kept| ==> !Contains(kept[k], NoiseMarker)
    ensures forall l :: l in kept ==> l in lines
    ensures forall l :: l in lines && !Contains(l, NoiseMarker) ==> l in kept
  {
    if lines == [] then []
    else (if Contains(lines[0], NoiseMarker) then [] else [lines[0]]) + KeepLines(lines[1..])
  }

  /** Filtering distributes over concatenation: what is kept from `a` comes
      before what is kept from `b`, so the original order is preserved. */
  lemma {:induction false} KeepLinesAppend(a: seq<string>, b: seq<string>)
    ensures KeepLines(a + b) == KeepLines(a) + KeepLines(b)
  {
    if a != [] {
      assert (a + b)[1..] == a[1..] + b;
      KeepLinesAppend(a[1..], b);
    } else {
      assert a + b == b;
    }
  }

  /** Filtering a second time removes nothing more. */
  lemma {:induction false} KeepLinesIdempotent(lines: seq<string>)
    ensures KeepLines(KeepLines(lines)) == KeepLines(lines)
  {
    if lines != [] {
      var head := if Contains(lines[0], NoiseMarker) then [] else [lines[0]];
      KeepLinesAppend(head, KeepLines(lines[1..]));
      KeepLinesIdempotent(lines[1..]);
      if head != [] {
        assert KeepLines(head) == head + KeepLines(head[1..]);
      }
    }
  }

  /** The cleaned text that is handed to the JSON decoder. */
  function Clean(output: string): string {
    Join(KeepLines(Split(output)))
  }

  /** The kept lines hold no newline, since they are lines of a split. */
  lemma KeptLinesNewlineFree(output: string)
    ensures forall k :: 0 <= k < |KeepLines(Split(output))| ==> '\n' !in KeepLines(Split(output))[k]
  {
    var lines := Split(output);
    var kept := KeepLines(lines);
    forall k | 0 <= k < |kept| ensures '\n' !in kept[k] {
      assert kept[k] in lines;
      var j :| 0 <= j < |lines| && lines[j] == kept[k];
    }
  }

  /** After cleaning, the marker appears nowhere in the text and in none of
      its lines; the lines of the cleaned text are exactly the original
      lines without the marker, in order (when every line was dropped, the
      cleaned text is empty). */
  lemma CleanSpec(output: string)
    ensures !Contains(Clean(output), NoiseMarker)
    ensures forall k :: 0 <= k < |Split(Clean(output))| ==> !Contains(Split(Clean(output))[k], NoiseMarker)
    ensures KeepLines(Split(output)) != [] ==> Split(Clean(output)) == KeepLines(Split(output))
    ensures KeepLines(Split(output)) == [] ==> Clean(output) == ""
  {
    var kept := KeepLines(Split(output));
    assert NoiseMarker[7] == ' ';
    assert '\n' !in NoiseMarker;
    JoinAvoids(kept, NoiseMarker);
    if kept != [] {
      KeptLinesNewlineFree(output);
      SplitJoin(kept);
    } else {
      assert Split(Clean(output)) == [""];
      AbsentFirstChar("", NoiseMarker);
    }
  }

  /** Cleaning an already cleaned text changes nothing. */
  lemma CleanIdempotent(output: string)
    ensures Clean(Clean(output)) == Clean(output)
  {
    var kept := KeepLines(Split(output));
    CleanSpec(output);
    if kept != [] {
      KeepLinesIdempotent(Split(output));
    } else {
      assert Split("") == [""];
      AbsentFirstChar("", NoiseMarker);
      assert KeepLines([""]) == [""];
    }
  }

  // ---------------------------------------------------------------------
  // Regex fallback
  // ---------------------------------------------------------------------

  /** `"<key>":`, the literal head of each fallback pattern. */
  function Quoted(key: string): string {
    "\"" + key + "\":"
  }

  /** The pattern `"<key>":\s*(\d+)` tried at position `i` of `s`, giving the
      value of the captured digits. Both runs are greedy and each is
      followed by something outside its class, so a match never depends on
      backtracking. */
  function FieldAt(s: string, key: string, i: nat): Option<nat> {
    var head := Quoted(key);
    if i + |head| <= |s| && s[i..i + |head|] == head then
      var rest := s[i + |head|..];
      var digits := rest[Span(rest, IsSpace)..];
      var n := Span(digits, IsDigit);
      if n == 0 then None else Some(DigitsValue(digits[..n]))
    else None
  }

  /** The pattern for `key`, as a function of the start position. */
  function FieldPattern(s: string, key: string): nat -> Option<nat> {
    (i: nat) => FieldAt(s, key, i)
  }

  /** `re.search(r'"<key>":\s*(\d+)', s)`, converted with `int(...)`. */
  function FallbackField(s: string, key: string): Option<nat> {
    Search.Leftmost(FieldPattern(s, key), 0, |s|)
  }

  /** A field whose quoted name never occurs is not found. */
  lemma FallbackFieldAbsent(s: string, key: string)
    ensures !Contains(s, Quoted(key)) ==> FallbackField(s, key) == None
  {
    if !Contains(s, Quoted(key)) {
      var m := FieldPattern(s, key);
      forall i: nat | i <= |s| ensures m(i).None? {
        var head := Quoted(key);
        assert !OccursAt(s, head, i);
      }
      Search.LeftmostNone(m, 0, |s|);
    }
  }

  /** After the quoted name, `\s*` takes exactly the whitespace `ws` and
      `(\d+)` exactly the digits. */
  lemma TailParses(ws: string, digits: string, post: string)
    requires AllSpace(ws) && digits != [] && AllDigits(digits)
    requires post == [] || !IsDigit(post[0])
    ensures var rest := ws + digits + post;
      var d := rest[Span(rest, IsSpace)..];
      Span(d, IsDigit) == |digits| && d[..|digits|] == digits
  {
    var rest := ws + digits + post;
    var t := digits + post;
    assert rest == ws + t;
    assert t[0] == digits[0];
    SpanUnique(rest, IsSpace, |ws|);
    assert rest[|ws|..] == t;
    SpanUnique(t, IsDigit, |digits|);
    assert t[..|digits|] == digits;
  }

  /** No position where the quoted name does not occur can start a match. */
  lemma NoMatchBeforeQuote(pre: string, key: string, tail: string)
    requires forall j: nat :: j < |pre| ==> !OccursAt(pre + Quoted(key) + tail, Quoted(key), j)
    ensures forall j: nat :: j < |pre| ==> FieldAt(pre + Quoted(key) + tail, key, j).None?
  {
    var s := pre + Quoted(key) + tail;
    forall j: nat | j < |pre| ensures FieldAt(s, key, j).None? {
      assert !OccursAt(s, Quoted(key), j);
    }
  }

  /** The fallback reads the number after the first quoted name: when
      `s` = pre + `"<key>":` + whitespace + digits + a tail that does not
      start with a digit, and the quoted name does not start anywhere in
      `pre` (other quoted names may), the field is the digits' value. */
  lemma FallbackReadsFirstField(pre: string, key: string, ws: string, digits: string, post: string)
    requires forall j: nat :: j < |pre| ==>
      !OccursAt(pre + Quoted(key) + ws + digits + post, Quoted(key), j)
    requires AllSpace(ws) && digits != [] && AllDigits(digits)
    requires post == [] || !IsDigit(post[0])
    ensures FallbackField(pre + Quoted(key) + ws + digits + post, key) == Some(DigitsValue(digits))
  {
    var tail := ws + digits + post;
    assert pre + Quoted(key) + tail == pre + Quoted(key) + ws + digits + post;
    TailParses(ws, digits, post);
    FieldAfterQuote(pre, key, tail);
    FallbackFindsAt(pre, key, tail);
  }

  /** The pattern matches at the quoted name, reading what follows it. */
  lemma FieldAfterQuote(pre: string, key: string, tail: string)
    ensures FieldAt(pre + Quoted(key) + tail, key, |pre|)
         == (var d := tail[Span(tail, IsSpace)..];
             var n := Span(d, IsDigit);
             if n == 0 then None else Some(DigitsValue(d[..n])))
  {
    var head := Quoted(key);
    var s := pre + head + tail;
    assert s[|pre|..|pre| + |head|] == head;
    assert s[|pre| + |head|..] == tail;
  }

  /** When the quoted name does not start before `pre` ends, the first
      match, if the pattern matches at the quoted name, is the one there. */
  lemma FallbackFindsAt(pre: string, key: string, tail: string)
    requires forall j: nat :: j < |pre| ==> !OccursAt(pre + Quoted(key) + tail, Quoted(key), j)
    requires FieldAt(pre + Quoted(key) + tail, key, |pre|).Some?
    ensures FallbackField(pre + Quoted(key) + tail, key) == FieldAt(pre + Quoted(key) + tail, key, |pre|)
  {
    var s := pre + Quoted(key) + tail;
    var m := FieldPattern(s, key);
    NoMatchBeforeQuote(pre, key, tail);
    assert forall j: nat :: 0 <= j < |pre| ==> m(j).None?;
    Search.LeftmostAt(m, 0, |s|, |pre|);
  }

  /** The regex fallback over the uncleaned output: each field is the first
      match of its pattern, 0 when there is none; so every field is at
      least 0, and a field whose quoted name is absent is 0. */
  function Fallback(output: string): (r: Reading)
    ensures r.temp >= 0 && r.rpm >= 0 && r.duty >= 0
    ensures !Contains(output, Quoted("cpu_temp_cels")) ==> r.temp == 0
    ensures !Contains(output, Quoted("rpms")) ==> r.rpm == 0
    ensures !Contains(output, Quoted("duty")) ==> r.duty == 0
  {
    FallbackFieldAbsent(output, "cpu_temp_cels");
    FallbackFieldAbsent(output, "rpms");
    FallbackFieldAbsent(output, "duty");
    Reading(FallbackField(output, "cpu_temp_cels").GetOr(0),
            FallbackField(output, "rpms").GetOr(0),
            FallbackField(output, "duty").GetOr(0))
  }

  // ---------------------------------------------------------------------
  // The whole read
  // ---------------------------------------------------------------------

  /** `data.get(key, 0)`. */
  function Member(members: map<string, int>, key: string): int {
    if key in members then members[key] else 0
  }

  /** The decoded object's three members, 0 for each absent one. */
  function FromObject(members: map<string, int>): (r: Reading)
    ensures "cpu_temp_cels" in members ==> r.temp == members["cpu_temp_cels"]
    ensures "rpms" in members ==> r.rpm == members["rpms"]
    ensures "duty" in members ==> r.duty == members["duty"]
    ensures "cpu_temp_cels" !in members ==> r.temp == 0
    ensures "rpms" !in members ==> r.rpm == 0
    ensures "duty" !in members ==> r.duty == 0
  {
    Reading(Member(members, "cpu_temp_cels"), Member(members, "rpms"), Member(members, "duty"))
  }

  /** `get_sensor_values`, with the helper's run and the JSON decoder as
      inputs. A raised call or a non-zero exit (`check_output` raises on
      it) gives three zeros. Otherwise the stripped output is cleaned and
      decoded: a decoded object gives its members as they are, 0 for an
      absent one; a decode error gives the regex fallback over the
      stripped but uncleaned output; any other outcome gives three zeros. */
  function GetSensorValues(run: Run, decode: string -> Json): (r: Reading)
    ensures run.Raised? || run.code != 0 ==> r == Zero
    ensures run.Exited? && run.code == 0 && decode(Clean(Strip(run.stdout))).Object? ==>
      var members := decode(Clean(Strip(run.stdout))).members;
      && r.temp == (if "cpu_temp_cels" in members then members["cpu_temp_cels"] else 0)
      && r.rpm == (if "rpms" in members then members["rpms"] else 0)
      && r.duty == (if "duty" in members then members["duty"] else 0)
    ensures run.Exited? && run.code == 0 && decode(Clean(Strip(run.stdout))).Malformed? ==>
      r == Fallback(Strip(run.stdout))
    ensures run.Exited? && run.code == 0 && decode(Clean(Strip(run.stdout))).NotAnObject? ==>
      r == Zero
  {
    match run
    case Raised => Zero
    case Exited(code, stdout) =>
      if code != 0 then Zero
      else
        var output := Strip(stdout);
        match decode(Clean(output))
        case Object(members) => FromObject(members)
        case Malformed => Fallback(output)
        case NotAnObject => Zero
  }

  /** No sanity bound on the fallback path: a temperature of any size
      written after `"cpu_temp_cels":` comes back unchanged when the
      decoder rejects the text. */
  lemma FallbackIsUnbounded(t: nat, decode: string -> Json)
    requires decode(Clean(Quoted("cpu_temp_cels") + NatToString(t))).Malformed?
    ensures GetSensorValues(Exited(0, Quoted("cpu_temp_cels") + NatToString(t)), decode).temp == t
  {
    var digits := NatToString(t);
    StripLoneField("cpu_temp_cels", digits);
    ReadsLoneField("cpu_temp_cels", digits);
  }

  /** Nor on the fan speed: any RPM written after `"rpms":` comes back
      unchanged when the decoder rejects the text. */
  lemma FallbackRpmIsUnbounded(rpm: nat, decode: string -> Json)
    requires decode(Clean(Quoted("rpms") + NatToString(rpm))).Malformed?
    ensures GetSensorValues(Exited(0, Quoted("rpms") + NatToString(rpm)), decode).rpm == rpm
  {
    var digits := NatToString(rpm);
    StripLoneField("rpms", digits);
    ReadsLoneField("rpms", digits);
  }

  /** A quoted name followed by digits is already stripped. */
  lemma StripLoneField(key: string, digits: string)
    requires digits != [] && AllDigits(digits)
    ensures Strip(Quoted(key) + digits) == Quoted(key) + digits
  {
    var text := Quoted(key) + digits;
    assert Trimmed(text) by {
      assert text[0] == '"';
      assert text[|text| - 1] == digits[|digits| - 1];
    }
    StripPadded([], text, []);
    assert [] + text + [] == text;
  }

  /** The fallback reads the digits after a lone quoted name. */
  lemma ReadsLoneField(key: string, digits: string)
    requires digits != [] && AllDigits(digits)
    ensures FallbackField(Quoted(key) + digits, key) == Some(DigitsValue(digits))
  {
    var e: string := [];
    assert e + Quoted(key) + e + digits + e == Quoted(key) + digits;
    FallbackReadsFirstField(e, key, e, digits, e);
  }

  /** No sanity bound on the JSON path either: whatever integers the object
      holds are returned as they are. */
  lemma JsonIsUnbounded(stdout: string, decode: string -> Json, t: int, rpm: int, duty: int)
    requires decode(Clean(Strip(stdout))) == Object(map["cpu_temp_cels" := t, "rpms" := rpm, "duty" := duty])
    ensures GetSensorValues(Exited(0, stdout), decode) == Reading(t, rpm, duty)
  {
  }

  /** A payload line followed by a noise line cleans to the payload line. */
  lemma CleanDropsNoiseLine(payload: string, noise: string)
    requires '\n' !in payload && '\n' !in noise
    requires !Contains(payload, NoiseMarker) && Contains(noise, NoiseMarker)
    ensures Clean(payload + "\n" + noise) == payload
  {
    var rest := "\n" + noise;
    SplitPrefix(payload, rest);
    assert rest[1..] == noise;
    SplitPrefix(noise, []);
    assert noise + [] == noise;
    assert Split(noise) == [noise];
    assert Split(rest) == [""] + [noise];
    assert payload + "" == payload;
    assert Split(payload + rest) == [payload, noise];
    assert payload + "\n" + noise == payload + rest;
    assert KeepLines([payload, noise]) == [payload] by {
      assert [payload, noise][1..] == [noise];
      assert [noise][1..] == [];
    }
  }

  /** Stripping the helper's output removes only its final newline. */
  lemma StripNoisyOutput(payload: string, noise: string)
    requires payload != [] && !IsSpace(payload[0])
    requires noise != [] && !IsSpace(noise[|noise| - 1])
    ensures Strip(payload + "\n" + noise + "\n") == payload + "\n" + noise
  {
    var body := payload + "\n" + noise;
    assert payload + "\n" + noise + "\n" == [] + body + "\n";
    assert body[0] == payload[0];
    assert body[|body| - 1] == noise[|noise| - 1];
    StripPadded([], body, "\n");
  }

  /** The helper prints one line of JSON and then a `wait_ec error` line:
      the noise is dropped, and what the decoder makes of the payload line
      alone is the reading. */
  lemma JsonThenNoise(payload: string, noise: string, decode: string -> Json, members: map<string, int>)
    requires payload != [] && !IsSpace(payload[0])
    requires noise != [] && !IsSpace(noise[|noise| - 1])
    requires '\n' !in payload && '\n' !in noise
    requires !Contains(payload, NoiseMarker) && Contains(noise, NoiseMarker)
    requires decode(payload) == Object(members)
    ensures GetSensorValues(Exited(0, payload + "\n" + noise + "\n"), decode) == FromObject(members)
  {
    StripNoisyOutput(payload, noise);
    CleanDropsNoiseLine(payload, noise);
  }
}

/** The Python string operations the monitor applies to process output and
    to the battery's sysfs files: `str.strip()`, `str.split('\n')`,
    `'\n'.join(...)`, the `in` substring test and the `int()` conversion.
    Strings are sequences of Unicode scalar values, as Python's `str` is. */
module Text {
  import opened Wrappers

  /** Python's `str.isspace()`; also exactly the characters `\s` matches in a
      regular expression over `str`. */
  predicate IsSpace(c: char) {
    c == ' ' || ('\t' <= c <= '\r') || ('\U{1c}' <= c <= '\U{1f}')
    || c == '\U{85}' || c == '\U{a0}' || c == '\U{1680}'
    || ('\U{2000}' <= c <= '\U{200a}') || c == '\U{2028}' || c == '\U{2029}'
    || c == '\U{202f}' || c == '\U{205f}' || c == '\U{3000}'
  }

  /** An ASCII decimal digit. */
  predicate IsDigit(c: char) {
    '0' <= c <= '9'
  }

  predicate AllSpace(s: string) {
    forall k :: 0 <= k < |s| ==> IsSpace(s[k])
  }

  predicate AllDigits(s: string) {
    forall k :: 0 <= k < |s| ==> IsDigit(s[k])
  }

  /** Neither end of `s` is whitespace (vacuously true of ""). */
  predicate Trimmed(s: string) {
    s == [] || (!IsSpace(s[0]) && !IsSpace(s[|s| - 1]))
  }

  // ---------------------------------------------------------------------
  // Runs of characters, as a greedy `\s*`, `\s+` or `\d+` consumes them
  // ---------------------------------------------------------------------

  /** Length of the longest prefix of `s` made of characters satisfying `p`. */
  function Span(s: string, p: char -> bool): (n: nat)
    ensures n <= |s|
    ensures forall k :: 0 <= k < n ==> p(s[k])
    ensures n < |s| ==> !p(s[n])
  {
    if s == [] || !p(s[0]) then 0 else 1 + Span(s[1..], p)
  }

  /** Length of the longest suffix of `s` made of characters satisfying `p`. */
  function SpanBack(s: string, p: char -> bool): (n: nat)
    ensures n <= |s|
    ensures forall k :: |s| - n <= k < |s| ==> p(s[k])
    ensures n < |s| ==> !p(s[|s| - 1 - n])
  {
    if s == [] || !p(s[|s| - 1]) then 0 else 1 + SpanBack(s[..|s| - 1], p)
  }

  /** The greedy run is the only prefix of its kind: any prefix of `p`
      characters followed by a non-`p` character (or the end) is it. */
  lemma SpanUnique(s: string, p: char -> bool, n: nat)
    requires n <= |s|
    requires forall k :: 0 <= k < n ==> p(s[k])
    requires n < |s| ==> !p(s[n])
    ensures Span(s, p) == n
  {
  }

  lemma SpanBackUnique(s: string, p: char -> bool, n: nat)
    requires n <= |s|
    requires forall k :: |s| - n <= k < |s| ==> p(s[k])
    requires n < |s| ==> !p(s[|s| - 1 - n])
    ensures SpanBack(s, p) == n
  {
  }

  // ---------------------------------------------------------------------
  // str.strip()
  // ---------------------------------------------------------------------

  /** Python's `s.strip()`: `s` without its leading and trailing whitespace.
      The result is the piece of `s` that starts after the leading
      whitespace, everything around it is whitespace, and neither of its
      ends is whitespace. */
  function Strip(s: string): (r: string)
    ensures Span(s, IsSpace) + |r| <= |s|
    ensures r == s[Span(s, IsSpace)..Span(s, IsSpace) + |r|]
    ensures AllSpace(s[..Span(s, IsSpace)]) && AllSpace(s[Span(s, IsSpace) + |r|..])
    ensures Trimmed(r)
  {
    var lo := Span(s, IsSpace);
    if lo == |s| then
      []
    else
      var n := SpanBack(s, IsSpace);
      s[lo..|s| - n]
  }

  /** Strip removes exactly the surrounding whitespace: padding a trimmed
      string with whitespace on either side and stripping gives it back. */
  lemma StripPadded(pre: string, core: string, post: string)
    requires AllSpace(pre) && AllSpace(post) && Trimmed(core)
    ensures Strip(pre + core + post) == core
  {
    var s := pre + core + post;
    if core == [] {
      assert AllSpace(s);
      SpanUnique(s, IsSpace, |s|);
    } else {
      assert s[|pre|] == core[0];
      SpanUnique(s, IsSpace, |pre|);
      assert s[|s| - 1 - |post|] == core[|core| - 1];
      SpanBackUnique(s, IsSpace, |post|);
      assert s[|pre|..|s| - |post|] == core;
    }
  }

  /** Stripping twice is stripping once. */
  lemma StripIdempotent(s: string)
    ensures Strip(Strip(s)) == Strip(s)
  {
    StripPadded([], Strip(s), []);
    assert [] + Strip(s) + [] == Strip(s);
  }

  // ---------------------------------------------------------------------
  // str.split('\n') and '\n'.join(...)
  // ---------------------------------------------------------------------

  /** Python's `s.split('\n')`: the pieces between newlines. There is always
      at least one piece ("" splits into [""]), and no piece holds a newline. */
  function Split(s: string): (lines: seq<string>)
    ensures |lines| >= 1
    ensures forall k :: 0 <= k < |lines| ==> '\n' !in lines[k]
  {
    if s == [] then
      [""]
    else
      var rest := Split(s[1..]);
      if s[0] == '\n' then [""] + rest
      else [[s[0]] + rest[0]] + rest[1..]
  }

  /** Python's `'\n'.join(lines)`. */
  function Join(lines: seq<string>): string {
    if |lines| == 0 then ""
    else if |lines| == 1 then lines[0]
    else lines[0] + "\n" + Join(lines[1..])
  }

  /** Joining the pieces of a split gives the original text back. */
  lemma {:induction false} JoinSplit(s: string)
    ensures Join(Split(s)) == s
  {
    if s != [] {
      var rest := Split(s[1..]);
      JoinSplit(s[1..]);
      if s[0] == '\n' {
        assert ([""] + rest)[1..] == rest;
        assert Join([""] + rest) == "" + "\n" + Join(rest);
      } else {
        var lines := [[s[0]] + rest[0]] + rest[1..];
        assert lines[1..] == rest[1..];
        if |rest| > 1 {
          assert Join(rest) == rest[0] + "\n" + Join(rest[1..]);
          assert Join(lines) == ([s[0]] + rest[0]) + "\n" + Join(rest[1..]);
        }
        assert s == [s[0]] + s[1..];
      }
    }
  }

  /** Splitting a text that begins with a newline-free piece `a` glues `a`
      onto the first line of the rest. */
  lemma {:induction false} SplitPrefix(a: string, t: string)
    requires '\n' !in a
    ensures Split(a + t) == [a + Split(t)[0]] + Split(t)[1..]
  {
    if a != [] {
      SplitPrefix(a[1..], t);
      assert (a + t)[1..] == a[1..] + t;
      assert [a[0]] + (a[1..] + Split(t)[0]) == a + Split(t)[0];
    } else {
      assert a + t == t;
      assert a + Split(t)[0] == Split(t)[0];
      assert Split(t) == [Split(t)[0]] + Split(t)[1..];
    }
  }

  /** Splitting a join of newline-free lines gives the lines back. */
  lemma {:induction false} SplitJoin(lines: seq<string>)
    requires |lines| >= 1
    requires forall k :: 0 <= k < |lines| ==> '\n' !in lines[k]
    ensures Split(Join(lines)) == lines
  {
    if |lines| == 1 {
      SplitPrefix(lines[0], "");
      assert lines[0] + "" == lines[0];
    } else {
      var tail := Join(lines[1..]);
      SplitJoin(lines[1..]);
      assert Join(lines) == lines[0] + ("\n" + tail);
      SplitPrefix(lines[0], "\n" + tail);
      assert ("\n" + tail)[1..] == tail;
      assert Split("\n" + tail) == [""] + lines[1..];
      assert lines[0] + "" == lines[0];
      assert lines == [lines[0]] + lines[1..];
    }
  }

  // ---------------------------------------------------------------------
  // The `in` test on strings
  // ---------------------------------------------------------------------

  /** `m` occurs in `s` starting at position `i`. */
  predicate OccursAt(s: string, m: string, i: int) {
    0 <= i && i + |m| <= |s| && s[i..i + |m|] == m
  }

  /** Python's `m in s` for two strings. */
  predicate Contains(s: string, m: string) {
    exists i :: 0 <= i <= |s| - |m| && OccursAt(s, m, i)
  }

  /** A non-empty pattern whose first character never appears in `s` does
      not occur in `s`. */
  lemma AbsentFirstChar(s: string, m: string)
    requires m != [] && m[0] !in s
    ensures !Contains(s, m)
  {
    forall i | 0 <= i <= |s| - |m|
      ensures !OccursAt(s, m, i)
    {
      assert s[i] == s[i..i + |m|][0];
    }
  }

  /** A pattern without newlines that occurs in neither of two lines does not
      occur in their newline-separated join. */
  lemma NotAcrossNewline(a: string, b: string, m: string)
    requires '\n' !in m
    requires !Contains(a, m) && !Contains(b, m)
    ensures !Contains(a + "\n" + b, m)
  {
    var s := a + "\n" + b;
    forall i | 0 <= i <= |s| - |m|
      ensures !OccursAt(s, m, i)
    {
      if i + |m| <= |a| {
        assert s[i..i + |m|] == a[i..i + |m|];
        assert !OccursAt(a, m, i);
      } else if i > |a| {
        var j := i - |a| - 1;
        assert s[i..i + |m|] == b[j..j + |m|];
        assert !OccursAt(b, m, j);
      } else {
        assert s[i..i + |m|][|a| - i] == s[|a|] == '\n';
      }
    }
  }

  /** A non-empty pattern without newlines that occurs in no line does not
      occur in the join of the lines. */
  lemma {:induction false} JoinAvoids(lines: seq<string>, m: string)
    requires m != [] && '\n' !in m
    requires forall k :: 0 <= k < |lines| ==> !Contains(lines[k], m)
    ensures !Contains(Join(lines), m)
  {
    if |lines| == 0 {
      assert Join(lines) == [];
    } else if |lines| > 1 {
      JoinAvoids(lines[1..], m);
      NotAcrossNewline(lines[0], Join(lines[1..]), m);
    }
  }

  // ---------------------------------------------------------------------
  // Decimal numbers: Python's int() and str()
  // ---------------------------------------------------------------------

  function DigitValue(c: char): nat
    requires IsDigit(c)
  {
    c as nat - '0' as nat
  }

  function DigitChar(d: nat): (c: char)
    requires d < 10
    ensures IsDigit(c) && DigitValue(c) == d
  {
    ('0' as nat + d) as char
  }

  /** Value of a string of decimal digits, most significant first; leading
      zeros are allowed, as `int()` allows them. */
  function DigitsValue(s: string): nat
    requires AllDigits(s)
  {
    if s == [] then 0 else DigitsValue(s[..|s| - 1]) * 10 + DigitValue(s[|s| - 1])
  }

  /** Python's `str(n)` for a natural number: its shortest decimal spelling. */
  function NatToString(n: nat): (s: string)
    ensures |s| >= 1 && AllDigits(s)
    ensures |s| > 1 ==> s[0] != '0'
    ensures DigitsValue(s) == n
  {
    if n < 10 then
      [DigitChar(n)]
    else
      var s := NatToString(n / 10) + [DigitChar(n % 10)];
      assert s[..|s| - 1] == NatToString(n / 10);
      s
  }

  /** Python's `str(n)` for an integer. */
  function IntToString(n: int): (s: string)
    ensures |s| >= 1
    ensures s[0] == '-' <==> n < 0
    ensures n >= 0 ==> AllDigits(s)
  {
    if n < 0 then "-" + NatToString(-n) else NatToString(n)
  }

  /** The unsigned part of what Python's `int()` accepts in base 10: ASCII
      digits, where single underscores may separate two digits. */
  predicate IsDigitGroup(s: string) {
    && |s| > 0 && IsDigit(s[0]) && IsDigit(s[|s| - 1])
    && (forall k :: 0 <= k < |s| ==> IsDigit(s[k]) || s[k] == '_')
    && (forall k :: 0 <= k < |s| - 1 && s[k] == '_' ==> s[k + 1] != '_')
  }

  /** `s` with its underscores removed. */
  function DropUnderscores(s: string): (r: string)
    requires forall k :: 0 <= k < |s| ==> IsDigit(s[k]) || s[k] == '_'
    ensures AllDigits(r) && |r| <= |s|
    ensures AllDigits(s) ==> r == s
  {
    if s == [] then [] else (if s[0] == '_' then [] else [s[0]]) + DropUnderscores(s[1..])
  }

  /** Python's `int(s)` on an already stripped string: an optional sign and
      a digit group; anything else raises, which is `None` here. */
  function ParseInt(s: string): Option<int> {
    if |s| > 0 && (s[0] == '+' || s[0] == '-') then
      var body := s[1..];
      if IsDigitGroup(body) then
        var v: int := DigitsValue(DropUnderscores(body));
        Some(if s[0] == '-' then -v else v)
      else None
    else if IsDigitGroup(s) then Some(DigitsValue(DropUnderscores(s)))
    else None
  }

  /** `int(str(n)) == n`. */
  lemma ParseIntOfString(n: int)
    ensures ParseInt(IntToString(n)) == Some(n)
  {
    var digits := NatToString(if n < 0 then -n else n);
    assert IsDigitGroup(digits);
    if n < 0 {
      assert IntToString(n)[1..] == digits;
    }
  }

  /** `int()` rejects the empty string and a lone sign. */
  lemma ParseIntRejectsEmpty()
    ensures ParseInt("") == None && ParseInt("-") == None && ParseInt("+") == None
  {
    assert "-"[1..] == "";
    assert "+"[1..] == "";
  }
}

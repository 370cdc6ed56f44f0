/** The Python `str` operations both components rely on: `isspace`, `strip`,
    `lower().startswith`, `in`, `splitlines`, `join`, `replace(c, "")`,
    prefix slicing `s[:n]` and `str(n)` for integers. */
module PyText {

  /** `c.isspace()`: the characters Python 3 treats as whitespace. */
  predicate IsSpace(c: char) {
    c == ' ' || '\t' <= c <= '\r' || '\U{1c}' <= c <= '\U{1f}' || c == '\U{85}' || c == '\U{a0}'
    || c == '\U{1680}' || '\U{2000}' <= c <= '\U{200a}' || c == '\U{2028}' || c == '\U{2029}'
    || c == '\U{202f}' || c == '\U{205f}' || c == '\U{3000}'
  }

  /** Every character is whitespace (the empty string included). */
  predicate IsBlank(s: string) {
    forall k :: 0 <= k < |s| ==> IsSpace(s[k])
  }

  /** `s.lstrip()`: drop leading whitespace. */
  function LStrip(s: string): string {
    if s != [] && IsSpace(s[0]) then LStrip(s[1..]) else s
  }

  /** What `lstrip` leaves is a suffix that does not start with whitespace,
      after a blank prefix. */
  lemma {:induction false} LStripShape(s: string)
    ensures var r := LStrip(s);
      |r| <= |s| && r == s[|s| - |r|..] && IsBlank(s[..|s| - |r|]) && (r != [] ==> !IsSpace(r[0]))
    decreases |s|
  {
    if s != [] && IsSpace(s[0]) {
      LStripShape(s[1..]);
      var r := LStrip(s);
      assert s[1..][|s| - 1 - |r|..] == s[|s| - |r|..];
      assert s[..|s| - |r|] == [s[0]] + s[1..][..|s| - 1 - |r|];
    }
  }

  /** `s.rstrip()`: drop trailing whitespace. */
  function RStrip(s: string): string {
    if s != [] && IsSpace(s[|s| - 1]) then RStrip(s[..|s| - 1]) else s
  }

  /** What `rstrip` leaves is a prefix that does not end with whitespace,
      before a blank suffix. */
  lemma {:induction false} RStripShape(s: string)
    ensures var r := RStrip(s);
      |r| <= |s| && r == s[..|r|] && IsBlank(s[|r|..]) && (r != [] ==> !IsSpace(r[|r| - 1]))
    decreases |s|
  {
    if s != [] && IsSpace(s[|s| - 1]) {
      var init := s[..|s| - 1];
      RStripShape(init);
      var r := RStrip(s);
      assert init[..|r|] == s[..|r|];
      assert s[|r|..] == init[|r|..] + [s[|s| - 1]];
    }
  }

  /** Where `s.strip()` starts: the number of leading whitespace characters. */
  function StripStart(s: string): int {
    |s| - |LStrip(s)|
  }

  /** `s.strip()`: `s` without its leading and trailing whitespace. */
  function Strip(s: string): string {
    RStrip(LStrip(s))
  }

  /** What `strip` leaves: the slice of `s` after a blank prefix and before a
      blank suffix, with whitespace at neither end. */
  lemma StripShape(s: string)
    ensures var r, i := Strip(s), StripStart(s);
      0 <= i && i + |r| <= |s| && r == s[i..i + |r|]
      && IsBlank(s[..i]) && IsBlank(s[i + |r|..])
      && (r != [] ==> !IsSpace(r[0]) && !IsSpace(r[|r| - 1]))
  {
    var l := LStrip(s);
    var r := RStrip(l);
    var i := StripStart(s);
    LStripShape(s);
    RStripShape(l);
    assert r == s[i..i + |r|];
    assert s[i + |r|..] == l[|r|..];
  }

  /** `s.strip() == ""` exactly when `s` holds nothing but whitespace. */
  lemma StripEmptyIffBlank(s: string)
    ensures Strip(s) == "" <==> IsBlank(s)
  {
    StripShape(s);
  }

  /** Stripping a string that has no whitespace at either end leaves it unchanged. */
  lemma StripUnchanged(s: string)
    requires s != [] ==> !IsSpace(s[0]) && !IsSpace(s[|s| - 1])
    ensures Strip(s) == s
  {
  }

  /** `c.lower()` restricted to ASCII letters; other characters are left alone. */
  function AsciiLower(c: char): char {
    if 'A' <= c <= 'Z' then (c as int + 32) as char else c
  }

  /** `s.lower().startswith(prefix)` for a lower-case ASCII `prefix`. Only
      U+0130 and U+212A lower-case to ASCII letters outside A-Z, and neither
      can complete the prefixes used here, so comparing character by
      character after ASCII lowering decides the same thing. */
  predicate StartsWithIgnoringCase(s: string, prefix: string) {
    |prefix| <= |s| && forall k :: 0 <= k < |prefix| ==> AsciiLower(s[k]) == prefix[k]
  }

  /** `sub in s` for strings. */
  predicate Contains(s: string, sub: string) {
    exists i :: 0 <= i <= |s| && sub <= s[i..]
  }

  /** The index of the first occurrence of `c`, or -1 (`s.find(c)`). */
  function IndexOf(s: string, c: char): (r: int)
    ensures -1 <= r < |s|
  {
    if s == [] then -1
    else if s[0] == c then 0
    else
      var t := IndexOf(s[1..], c);
      if t == -1 then -1 else t + 1
  }

  /** `find` gives -1 exactly when `c` is absent, and otherwise an index
      holding `c` with no `c` before it. */
  lemma {:induction false} IndexOfSpec(s: string, c: char)
    ensures var r := IndexOf(s, c);
      (r == -1 <==> c !in s) && (r >= 0 ==> s[r] == c && c !in s[..r])
    decreases |s|
  {
    if s != [] && s[0] != c {
      IndexOfSpec(s[1..], c);
      var t := IndexOf(s[1..], c);
      assert s == [s[0]] + s[1..];
      if t >= 0 {
        assert s[..t + 1] == [s[0]] + s[1..][..t];
      }
    }
  }

  /** `"\n".join(...)`-style joining with a separator. */
  function Join(parts: seq<string>, sep: string): (r: string)
    decreases |parts|
  {
    if parts == [] then ""
    else if |parts| == 1 then parts[0]
    else parts[0] + sep + Join(parts[1..], sep)
  }

  /** `s.replace(c, "")` for one character `c`. */
  function RemoveChar(s: string, c: char): (r: string)
    ensures c !in r
    ensures |r| <= |s|
    ensures c !in s ==> r == s
  {
    if s == [] then ""
    else
      assert s == [s[0]] + s[1..];
      (if s[0] == c then "" else [s[0]]) + RemoveChar(s[1..], c)
  }

  /** `s[:n]` with Python's slice semantics: a negative `n` counts from the end,
      and an `n` beyond the end is clamped. */
  function PyPrefix(s: string, n: int): (r: string)
    ensures 0 <= n <= |s| ==> r == s[..n]
    ensures n > |s| ==> r == s
    ensures n < 0 ==> r == s[..if |s| + n < 0 then 0 else |s| + n]
  {
    if n >= 0 then (if n <= |s| then s[..n] else s)
    else if |s| + n < 0 then ""
    else s[..|s| + n]
  }

  /** The line boundaries of `str.splitlines`. */
  predicate IsLineBreak(c: char) {
    c == '\n' || c == '\r' || c == '\U{b}' || c == '\U{c}' || '\U{1c}' <= c <= '\U{1e}'
    || c == '\U{85}' || c == '\U{2028}' || c == '\U{2029}'
  }

  /** The string holds no line boundary. */
  predicate NoBreak(line: string) {
    forall k :: 0 <= k < |line| ==> !IsLineBreak(line[k])
  }

  /** The length of the first line: the index of the first boundary, or `|s|`. */
  function LineLength(s: string): (n: nat)
    ensures n <= |s|
  {
    if s == [] || IsLineBreak(s[0]) then 0 else 1 + LineLength(s[1..])
  }

  /** The first line holds no boundary, and a boundary ends it unless it
      runs to the end. */
  lemma {:induction false} LineLengthShape(s: string)
    ensures var n := LineLength(s); NoBreak(s[..n]) && (n < |s| ==> IsLineBreak(s[n]))
    decreases |s|
  {
    if s != [] && !IsLineBreak(s[0]) {
      LineLengthShape(s[1..]);
      var n := LineLength(s);
      assert s[..n] == [s[0]] + s[1..][..n - 1];
    }
  }

  /** `s.splitlines()`: the lines without their boundaries; `"\r\n"` is one
      boundary, and a boundary at the very end does not open an empty line. */
  function SplitLines(s: string): (lines: seq<string>)
    decreases |s|
  {
    if s == [] then []
    else
      var n := LineLength(s);
      if n == |s| then [s]
      else
        var skip := if s[n] == '\r' && n + 1 < |s| && s[n + 1] == '\n' then 2 else 1;
        [s[..n]] + SplitLines(s[n + skip..])
  }

  /** Lines joined with `"\n"` split back into the same lines, provided none of
      them holds a boundary and the last one is not empty. */
  lemma {:induction false} SplitLinesOfJoin(lines: seq<string>)
    requires forall i :: 0 <= i < |lines| ==> NoBreak(lines[i])
    requires lines != [] ==> lines[|lines| - 1] != ""
    ensures SplitLines(Join(lines, "\n")) == lines
    decreases |lines|
  {
    if |lines| == 1 {
      var s := lines[0];
      LineLengthOfLine(s, "");
      assert s + "" == s;
    } else if |lines| > 1 {
      var rest := Join(lines[1..], "\n");
      var s := lines[0] + "\n" + rest;
      LineLengthOfLine(lines[0], "\n" + rest);
      assert s == lines[0] + ("\n" + rest);
      var n := LineLength(s);
      assert n == |lines[0]| && s[n] == '\n';
      assert s[..n] == lines[0];
      assert s[n + 1..] == rest;
      SplitLinesOfJoin(lines[1..]);
      JoinNonEmpty(lines[1..]);
    }
  }

  /** The first line of `line + tail` is `line` when `line` holds no boundary
      and `tail` is empty or starts with one. */
  lemma {:induction false} LineLengthOfLine(line: string, tail: string)
    requires NoBreak(line)
    requires tail != [] ==> IsLineBreak(tail[0])
    ensures LineLength(line + tail) == |line|
    decreases |line|
  {
    if line != [] {
      assert (line + tail)[1..] == line[1..] + tail;
      LineLengthOfLine(line[1..], tail);
    }
  }

  /** Joining at least one line whose last line is non-empty gives a non-empty string. */
  lemma {:induction false} JoinNonEmpty(lines: seq<string>)
    requires lines != [] && lines[|lines| - 1] != ""
    ensures Join(lines, "\n") != ""
    decreases |lines|
  {
    if |lines| > 1 {
      JoinNonEmpty(lines[1..]);
    }
  }

  /** The decimal digit for `d`. */
  function DigitChar(d: int): char
    requires 0 <= d < 10
  {
    ('0' as int + d) as char
  }

  /** The decimal digits of a natural number, most significant first. */
  function Digits(n: nat): (r: string)
    ensures r != []
    ensures forall k :: 0 <= k < |r| ==> '0' <= r[k] <= '9'
    decreases n
  {
    if n < 10 then [DigitChar(n)] else Digits(n / 10) + [DigitChar(n % 10)]
  }

  /** `str(n)` for a Python `int`. */
  function Decimal(n: int): string {
    if n < 0 then "-" + Digits(-n) else Digits(n)
  }
}

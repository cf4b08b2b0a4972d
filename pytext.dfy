/**
 The Python 2 byte-string operations the Go plugin relies on: whitespace and
 digit classes, prefix and suffix tests, substring search, `lower`, `strip`,
 `splitlines`, `replace` and `int` of a digit string. The linters and the
 version parse work on byte strings (`str`), so whitespace is the six ASCII
 characters `str.isspace` accepts, which is also what `\s` matches in a
 pattern compiled without the UNICODE flag. (The names and types in gocode's
 decoded reply are only compared with fixed prefixes and concatenated.)
 */
module PyText {

  /** `str.isspace` on one character; `\s` in a byte-string pattern. */
  predicate IsSpace(c: char) {
    c == ' ' || c == '\t' || c == '\n' || c == '\r' || c == 11 as char || c == 12 as char
  }

  /** `\d` in a byte-string pattern. */
  predicate IsDigit(c: char) {
    '0' <= c <= '9'
  }

  /** The characters at which `str.splitlines` breaks a byte string. */
  predicate IsLineBreak(c: char) {
    c == '\n' || c == '\r'
  }

  predicate AllSpace(s: string) {
    forall i :: 0 <= i < |s| ==> IsSpace(s[i])
  }

  predicate AllDigits(s: string) {
    forall i :: 0 <= i < |s| ==> IsDigit(s[i])
  }

  predicate NoLineBreak(s: string) {
    forall i :: 0 <= i < |s| ==> !IsLineBreak(s[i])
  }

  /** No '\n': what a run of `.` in a pattern can match. */
  predicate NoNewline(s: string) {
    forall i :: 0 <= i < |s| ==> s[i] != '\n'
  }

  predicate StartsWith(s: string, prefix: string) {
    |prefix| <= |s| && s[..|prefix|] == prefix
  }

  predicate EndsWith(s: string, suffix: string) {
    |suffix| <= |s| && s[|s| - |suffix|..] == suffix
  }

  predicate OccursAt(s: string, sub: string, i: int) {
    0 <= i && i + |sub| <= |s| && s[i..i + |sub|] == sub
  }

  /** Python's `sub in s`. */
  predicate Contains(s: string, sub: string) {
    exists i :: 0 <= i <= |s| && OccursAt(s, sub, i)
  }

  /** What a prefix contains, the whole string contains. */
  lemma ContainsInPrefix(s: string, n: nat, sub: string)
    requires n <= |s| && Contains(s[..n], sub)
    ensures Contains(s, sub)
  {
    var i :| 0 <= i <= n && OccursAt(s[..n], sub, i);
    assert s[i..i + |sub|] == s[..n][i..i + |sub|];
    assert OccursAt(s, sub, i);
  }

  /** `str.lower` on one byte: only ASCII letters change. */
  function LowerChar(c: char): char {
    if 'A' <= c <= 'Z' then (c as int + 32) as char else c
  }

  function Lower(s: string): (r: string)
    ensures |r| == |s|
    ensures forall i :: 0 <= i < |s| ==> r[i] == LowerChar(s[i])
  {
    seq(|s|, i requires 0 <= i < |s| => LowerChar(s[i]))
  }

  /** Length of the whitespace run at the start of `s` (what `\s*` consumes). */
  function SpaceCount(s: string): (n: nat)
    ensures n <= |s| && AllSpace(s[..n])
    ensures n == |s| || !IsSpace(s[n])
  {
    if |s| > 0 && IsSpace(s[0]) then
      var n := 1 + SpaceCount(s[1..]);
      assert s[..n] == [s[0]] + s[1..][..n - 1];
      n
    else 0
  }

  /** Length of the non-whitespace run at the start of `s` (what `\S+` consumes). */
  function NonSpaceCount(s: string): (n: nat)
    ensures n <= |s|
    ensures forall i :: 0 <= i < n ==> !IsSpace(s[i])
    ensures n == |s| || IsSpace(s[n])
  {
    if |s| > 0 && !IsSpace(s[0]) then 1 + NonSpaceCount(s[1..]) else 0
  }

  /** Length of the digit run at the start of `s` (what a greedy `\d+` consumes). */
  function DigitCount(s: string): (n: nat)
    ensures n <= |s| && AllDigits(s[..n])
    ensures n == |s| || !IsDigit(s[n])
  {
    if |s| > 0 && IsDigit(s[0]) then
      var n := 1 + DigitCount(s[1..]);
      assert s[..n] == [s[0]] + s[1..][..n - 1];
      n
    else 0
  }

  /** Index of the first '\n' in `s`, or `|s|`: where a greedy `.*` stops. */
  function NewlineIndex(s: string): (n: nat)
    ensures n <= |s| && NoNewline(s[..n])
    ensures n == |s| || s[n] == '\n'
  {
    if |s| > 0 && s[0] != '\n' then
      var n := 1 + NewlineIndex(s[1..]);
      assert s[..n] == [s[0]] + s[1..][..n - 1];
      n
    else 0
  }

  /** What a trailing `(.*)` group captures from `s`. */
  function RestOfLine(s: string): string {
    s[..NewlineIndex(s)]
  }

  /** Number of whitespace characters at the end of `s`. */
  function TrailingSpaceCount(s: string): (n: nat)
    ensures n <= |s| && AllSpace(s[|s| - n..])
    ensures n == |s| || !IsSpace(s[|s| - n - 1])
  {
    if |s| > 0 && IsSpace(s[|s| - 1]) then
      var n := 1 + TrailingSpaceCount(s[..|s| - 1]);
      assert s[|s| - n..] == s[..|s| - 1][|s| - n..] + [s[|s| - 1]];
      n
    else 0
  }

  /** `str.lstrip()`. */
  function LStrip(s: string): string {
    s[SpaceCount(s)..]
  }

  /** `str.rstrip()`. */
  function RStrip(s: string): string {
    s[..|s| - TrailingSpaceCount(s)]
  }

  /** `str.strip()`. */
  function Strip(s: string): string {
    LStrip(RStrip(s))
  }

  /** `str.strip()` leaves nothing exactly when the string is all whitespace. */
  lemma StripEmptyIffAllSpace(s: string)
    ensures Strip(s) == [] <==> AllSpace(s)
  {
    var n := TrailingSpaceCount(s);
    var t, u := s[..|s| - n], s[|s| - n..];
    assert s == t + u;
    AllSpaceAppend(t, u);
    assert RStrip(s) == t;
    SpaceCountAll(t);
  }

  /** The leading whitespace run is the whole string exactly when it is all whitespace. */
  lemma SpaceCountAll(t: string)
    ensures SpaceCount(t) == |t| <==> AllSpace(t)
  {
    assert t[..|t|] == t;
  }

  lemma AllSpaceAppend(a: string, b: string)
    ensures AllSpace(a + b) <==> AllSpace(a) && AllSpace(b)
  {
    if AllSpace(a + b) {
      forall i | 0 <= i < |a| ensures IsSpace(a[i]) {
        assert (a + b)[i] == a[i];
      }
      forall i | 0 <= i < |b| ensures IsSpace(b[i]) {
        assert (a + b)[|a| + i] == b[i];
      }
    }
    if AllSpace(a) && AllSpace(b) {
      forall i | 0 <= i < |a + b| ensures IsSpace((a + b)[i]) {
        if i < |a| {
          assert (a + b)[i] == a[i];
        } else {
          assert (a + b)[i] == b[i - |a|];
        }
      }
    }
  }

  /** Index of the first line break in `s`, or `|s|`. */
  function LineBreakIndex(s: string): (n: nat)
    ensures n <= |s| && NoLineBreak(s[..n])
    ensures n == |s| || IsLineBreak(s[n])
  {
    if |s| > 0 && !IsLineBreak(s[0]) then
      var n := 1 + LineBreakIndex(s[1..]);
      assert s[..n] == [s[0]] + s[1..][..n - 1];
      n
    else 0
  }

  /**
   `str.splitlines()` on a byte string: lines end at "\n", "\r" or "\r\n",
   the line breaks are dropped, and a final line break opens no new line.
   */
  function SplitLines(s: string): (lines: seq<string>)
    ensures forall i :: 0 <= i < |lines| ==> NoLineBreak(lines[i])
    ensures |lines| <= |s|
    ensures s != [] ==> |lines| > 0
    decreases |s|
  {
    if s == [] then []
    else
      var n := LineBreakIndex(s);
      if n == |s| then [s]
      else if s[n] == '\r' && n + 1 < |s| && s[n + 1] == '\n' then [s[..n]] + SplitLines(s[n + 2..])
      else [s[..n]] + SplitLines(s[n + 1..])
  }

  /** The lines, each followed by "\n". */
  function JoinLines(lines: seq<string>): string {
    if lines == [] then [] else lines[0] + "\n" + JoinLines(lines[1..])
  }

  /** Splitting undoes joining: the splitter loses no line and invents none. */
  lemma {:induction false} SplitLinesJoinLines(lines: seq<string>)
    requires forall i :: 0 <= i < |lines| ==> NoLineBreak(lines[i])
    ensures SplitLines(JoinLines(lines)) == lines
  {
    if lines != [] {
      var l, rest := lines[0], JoinLines(lines[1..]);
      var s := JoinLines(lines);
      assert s == l + ("\n" + rest);
      LineBreakIndexOfPrefix(l, "\n" + rest);
      assert s[|l|] == '\n' && s[..|l|] == l && s[|l| + 1..] == rest;
      assert SplitLines(s) == [l] + SplitLines(rest);
      SplitLinesJoinLines(lines[1..]);
    }
  }

  lemma {:induction false} LineBreakIndexOfPrefix(l: string, t: string)
    requires NoLineBreak(l)
    requires |t| > 0 && IsLineBreak(t[0])
    ensures LineBreakIndex(l + t) == |l|
  {
    if l != [] {
      assert (l + t)[1..] == l[1..] + t;
      LineBreakIndexOfPrefix(l[1..], t);
    }
  }

  /** `int()` of a non-empty run of decimal digits. */
  function DecimalValue(ds: string): nat
    requires AllDigits(ds)
  {
    if ds == [] then 0
    else DecimalValue(ds[..|ds| - 1]) * 10 + (ds[|ds| - 1] as int - '0' as int)
  }

  /**
   `s.replace(target, replacement)`: every non-overlapping occurrence of
   `target`, scanning left to right, is replaced. An empty target inserts
   the replacement before every character and at the end, as Python does.
   */
  function Replace(s: string, target: string, replacement: string): string
    decreases |s|
  {
    if target == [] then
      if s == [] then replacement else replacement + [s[0]] + Replace(s[1..], target, replacement)
    else if StartsWith(s, target) then replacement + Replace(s[|target|..], target, replacement)
    else if s == [] then []
    else [s[0]] + Replace(s[1..], target, replacement)
  }

  /** A string without the target comes back unchanged. */
  lemma {:induction false} ReplaceAbsent(s: string, target: string, replacement: string)
    requires target != []
    requires !Contains(s, target)
    ensures Replace(s, target, replacement) == s
  {
    if s != [] {
      assert !OccursAt(s, target, 0);
      if Contains(s[1..], target) {
        var i :| 0 <= i <= |s[1..]| && OccursAt(s[1..], target, i);
        assert s[i + 1..i + 1 + |target|] == s[1..][i..i + |target|];
        assert OccursAt(s, target, i + 1);
      }
      ReplaceAbsent(s[1..], target, replacement);
    }
  }

  /** An occurrence after the first character is an occurrence. */
  lemma ContainsAfterFirst(s: string, sub: string)
    requires s != [] && Contains(s[1..], sub)
    ensures Contains(s, sub)
  {
    var i :| 0 <= i <= |s[1..]| && OccursAt(s[1..], sub, i);
    assert s[i + 1..i + 1 + |sub|] == s[1..][i..i + |sub|];
    assert OccursAt(s, sub, i + 1);
  }

  /**
   When no occurrence starts in `a + target[..|target| - 1]` and `a` is not
   empty, the target does not start `a + target + b`, and dropping the first
   character of `a` keeps the condition.
   */
  lemma NoEarlierTarget(a: string, target: string, b: string)
    requires target != [] && a != []
    requires !Contains(a + target[..|target| - 1], target)
    ensures !StartsWith(a + target + b, target)
    ensures !Contains(a[1..] + target[..|target| - 1], target)
  {
    var p := a + target[..|target| - 1];
    assert p[1..] == a[1..] + target[..|target| - 1];
    if Contains(p[1..], target) {
      ContainsAfterFirst(p, target);
    }
    assert !OccursAt(p, target, 0);
  }

  /** Where the target does not start, the first character is copied. */
  lemma ReplaceCopiesFirst(a: string, target: string, b: string, replacement: string)
    requires a != [] && target != []
    requires !StartsWith(a + target + b, target)
    ensures Replace(a + target + b, target, replacement) == [a[0]] + Replace(a[1..] + target + b, target, replacement)
  {
    assert (a + target + b)[1..] == a[1..] + target + b;
  }

  /** A target at the start is replaced, and the rest is searched after it. */
  lemma ReplaceAtStart(target: string, b: string, replacement: string)
    requires target != []
    ensures Replace(target + b, target, replacement) == replacement + Replace(b, target, replacement)
  {
    assert (target + b)[|target|..] == b;
  }

  lemma ConsAppend(a: string, r: string, z: string)
    requires a != []
    ensures [a[0]] + (a[1..] + r + z) == a + r + z
  {
    assert a == [a[0]] + a[1..];
  }

  /**
   The first occurrence of the target is replaced: text before it that holds
   no occurrence (not even one that runs into the target) is copied, and the
   search goes on after the target.
   */
  lemma {:induction false} ReplaceFirst(a: string, target: string, b: string, replacement: string)
    requires target != []
    requires !Contains(a + target[..|target| - 1], target)
    ensures Replace(a + target + b, target, replacement) == a + replacement + Replace(b, target, replacement)
  {
    if a == [] {
      assert a + target + b == target + b;
      ReplaceAtStart(target, b, replacement);
    } else {
      NoEarlierTarget(a, target, b);
      ReplaceFirst(a[1..], target, b, replacement);
      ReplaceCopiesFirst(a, target, b, replacement);
      ConsAppend(a, replacement, Replace(b, target, replacement));
    }
  }

  /** Replacing in a one-line string by a one-line replacement gives one line. */
  lemma {:induction false} ReplaceKeepsLine(s: string, target: string, replacement: string)
    requires NoLineBreak(s) && NoLineBreak(replacement)
    ensures NoLineBreak(Replace(s, target, replacement))
  {
    if target == [] {
      if s != [] {
        ReplaceKeepsLine(s[1..], target, replacement);
      }
    } else if StartsWith(s, target) {
      ReplaceKeepsLine(s[|target|..], target, replacement);
    } else if s != [] {
      ReplaceKeepsLine(s[1..], target, replacement);
    }
  }

  /** The greedy `\d+` stops at the first character that is not a digit. */
  lemma {:induction false} DigitRunStops(digits: string, t: string)
    requires AllDigits(digits)
    requires |t| > 0 && !IsDigit(t[0])
    ensures DigitCount(digits + t) == |digits|
  {
    if digits != [] {
      assert (digits + t)[1..] == digits[1..] + t;
      DigitRunStops(digits[1..], t);
    }
  }
}

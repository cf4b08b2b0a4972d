/**
 The gofmt-based Go linter of the language service (`KoGolangLinter`): where
 gofmt is looked for, the environment it runs with, and how each line gofmt
 writes to stderr, `file:line:column: description`, becomes a lint result.
 Running gofmt is a parameter: `runTool(command, env, fileText)` is what the
 process reports when `command` runs with `env` on a temp file holding
 `fileText`.
 */
module GoFmtLinter {
  import opened Optional
  import opened PyText
  import opened LintResults

  // ---- Locating gofmt ----

  /** `goLocation.lower().endswith(".exe")`. */
  predicate IsExePath(goLocation: string) {
    EndsWith(Lower(goLocation), ".exe")
  }

  /**
   The gofmt path derived from the go path: a trailing ".exe" (in any case)
   becomes "fmt.exe"; otherwise "fmt" is appended.
   */
  function FormatToolPath(goLocation: string): (path: string)
    ensures |path| == |goLocation| + 3
    ensures IsExePath(goLocation) ==>
      StartsWith(path, goLocation[..|goLocation| - 4]) && EndsWith(path, "fmt.exe")
    ensures !IsExePath(goLocation) ==> StartsWith(path, goLocation) && EndsWith(path, "fmt")
  {
    if IsExePath(goLocation) then goLocation[..|goLocation| - 4] + "fmt.exe" else goLocation + "fmt"
  }

  /**
   A go path ending in ".exe", in any case, gives the "fmt.exe" beside it:
   "C:/Go/bin/go.exe" and "C:/Go/bin/GO.EXE" lead to ".../gofmt.exe" and
   ".../GOfmt.exe".
   */
  lemma FormatToolOfExe(stem: string, ext: string)
    requires |ext| == 4 && Lower(ext) == ".exe"
    ensures FormatToolPath(stem + ext) == stem + "fmt.exe"
  {
    var p := stem + ext;
    assert Lower(p)[|p| - 4..] == Lower(ext);
    assert p[..|p| - 4] == stem;
  }

  /** gofmt is the sibling of a go binary without ".exe": "/usr/bin/go" leads to "/usr/bin/gofmt". */
  lemma FormatToolOfPlain(dir: string)
    ensures FormatToolPath(dir + "go") == dir + "gofmt"
  {
    var p := dir + "go";
    assert Lower(p)[|p| - 1] == 'o';
    assert (dir + "go") + "fmt" == dir + "gofmt";
  }

  // ---- The environment gofmt runs with ----

  /** A value of the user environment: the host may hand over values that are not strings. */
  datatype EnvValue = Str(s: string) | NonStr

  /** The environment without its non-string entries. */
  ghost function StringEntries(env: map<string, EnvValue>): map<string, EnvValue> {
    map k | k in env && env[k].Str? :: env[k]
  }

  /**
   Collects the keys whose value is not a string, then deletes them: exactly
   the string entries remain, unchanged.
   */
  method FilterEnv(env: map<string, EnvValue>) returns (filtered: map<string, EnvValue>)
    ensures forall k :: k in filtered <==> k in env && env[k].Str?
    ensures forall k :: k in filtered ==> filtered[k] == env[k]
  {
    var badKeys: seq<string> := [];
    var unseen := env.Keys;
    while unseen != {}
      invariant unseen <= env.Keys
      invariant forall k :: k in badKeys <==> k in env && k !in unseen && !env[k].Str?
      decreases |unseen|
    {
      var k :| k in unseen;
      if !env[k].Str? {
        badKeys := badKeys + [k];
      }
      unseen := unseen - {k};
    }
    filtered := env;
    var i := 0;
    while i < |badKeys|
      invariant 0 <= i <= |badKeys|
      invariant forall k :: k in filtered <==> k in env && k !in badKeys[..i]
      invariant forall k :: k in filtered ==> filtered[k] == env[k]
    {
      assert badKeys[..i + 1] == badKeys[..i] + [badKeys[i]];
      filtered := filtered - {badKeys[i]};
      i := i + 1;
    }
    assert badKeys[..|badKeys|] == badKeys;
  }

  // ---- `^(.*?):(\d+):(\d+):\s*(.*)` ----

  /** `(\d+):(\d+):` at the start of `s`: the lengths of the two digit runs. */
  function PositionFields(s: string): (r: Option<(nat, nat)>)
    ensures r.Some? ==> var (a, b) := r.value;
      0 < a && 0 < b && a + 1 + b < |s| && s[a] == ':' && s[a + 1 + b] == ':' &&
      AllDigits(s[..a]) && AllDigits(s[a + 1..a + 1 + b])
  {
    var a := DigitCount(s);
    if a == 0 || a == |s| || s[a] != ':' then None
    else
      var b := DigitCount(s[a + 1..]);
      if b == 0 || a + 1 + b == |s| || s[a + 1 + b] != ':' then None
      else
        assert s[a + 1..][..b] == s[a + 1..a + 1 + b];
        Some((a, b))
  }

  /** The colon at `j` can end the lazy file group: `:(\d+):(\d+):` follows and no '\n' precedes. */
  predicate IsFileEnd(line: string, j: int) {
    0 <= j < |line| && line[j] == ':' && NoNewline(line[..j]) && PositionFields(line[j + 1..]).Some?
  }

  /** The lazy `(.*?)` group: the first position from `i` on that can end it. */
  function FileEnd(line: string, i: nat): (r: Option<nat>)
    requires i <= |line| && NoNewline(line[..i])
    ensures r.Some? ==> i <= r.value && IsFileEnd(line, r.value)
    ensures forall j :: i <= j < (if r.Some? then r.value else |line|) ==> !IsFileEnd(line, j)
    decreases |line| - i
  {
    if i == |line| then None
    else if line[i] == '\n' then
      NewlineEndsFileGroup(line, i);
      None
    else if line[i] == ':' && PositionFields(line[i + 1..]).Some? then Some(i)
    else
      OneMoreWithoutNewline(line, i);
      FileEnd(line, i + 1)
  }

  /** `.` does not match '\n', so no colon at or after a newline can end the file group. */
  lemma NewlineEndsFileGroup(line: string, i: nat)
    requires i < |line| && line[i] == '\n'
    ensures forall j :: i <= j < |line| ==> !IsFileEnd(line, j)
  {
    forall j | i < j < |line| ensures !NoNewline(line[..j]) {
      assert line[..j][i] == '\n';
    }
  }

  lemma OneMoreWithoutNewline(line: string, i: nat)
    requires i < |line| && NoNewline(line[..i]) && line[i] != '\n'
    ensures NoNewline(line[..i + 1])
  {
    assert line[..i + 1] == line[..i] + [line[i]];
  }

  /** The four groups of a matched gofmt error line, as text. */
  datatype ErrMatch = ErrMatch(file: string, lineText: string, columnText: string, desc: string)

  /** `\s*(.*)`: the rest of the line from `i`, without its leading whitespace. */
  function DescFrom(line: string, i: nat): string
    requires i <= |line|
  {
    RestOfLine(LStrip(line[i..]))
  }

  /** Where the description group's `\s*` starts: after the three groups and their colons. */
  function DescStart(m: ErrMatch): nat {
    |m.file| + 1 + |m.lineText| + 1 + |m.columnText| + 1
  }

  /** The file, line and column groups of `m` sit in `line`, each closed by a colon. */
  ghost predicate ErrPositions(line: string, m: ErrMatch) {
    var f := |m.file|;
    var c1 := f + 1 + |m.lineText|;
    var c2 := c1 + 1 + |m.columnText|;
    && |m.lineText| > 0 && AllDigits(m.lineText)
    && |m.columnText| > 0 && AllDigits(m.columnText)
    && c2 < |line|
    && line[..f] == m.file && line[f] == ':'
    && line[f + 1..c1] == m.lineText && line[c1] == ':'
    && line[c1 + 1..c2] == m.columnText && line[c2] == ':'
  }

  /** `m` holds the groups of `line` when its file group ends at `|m.file|`. */
  ghost predicate ErrFields(line: string, m: ErrMatch) {
    ErrPositions(line, m) && m.desc == DescFrom(line, DescStart(m))
  }

  /** `m` is how the pattern splits `line`: the shortest file group, then the other three groups. */
  ghost predicate ErrLineParts(line: string, m: ErrMatch) {
    && IsFileEnd(line, |m.file|)
    && (forall j :: 0 <= j < |m.file| ==> !IsFileEnd(line, j))
    && ErrFields(line, m)
  }

  /** The four groups when the colons that close them are at `f`, `c1` and `c2`. */
  function Groups(line: string, f: nat, c1: nat, c2: nat): ErrMatch
    requires f < c1 < c2 < |line|
  {
    ErrMatch(line[..f], line[f + 1..c1], line[c1 + 1..c2], DescFrom(line, c2 + 1))
  }

  /** Digit runs closed by colons at `f`, `c1` and `c2` are the file, line and column groups. */
  lemma GroupsPositions(line: string, f: nat, c1: nat, c2: nat)
    requires f + 1 < c1 && c1 + 1 < c2 < |line|
    requires line[f] == ':' && line[c1] == ':' && line[c2] == ':'
    requires AllDigits(line[f + 1..c1]) && AllDigits(line[c1 + 1..c2])
    ensures |Groups(line, f, c1, c2).file| == f && ErrPositions(line, Groups(line, f, c1, c2))
  {
    var m := Groups(line, f, c1, c2);
    assert |m.file| == f && |m.lineText| == c1 - f - 1 && |m.columnText| == c2 - c1 - 1;
  }

  /** The description group starts right after the third colon. */
  lemma GroupsDesc(line: string, f: nat, c1: nat, c2: nat)
    requires f < c1 < c2 < |line|
    ensures Groups(line, f, c1, c2).desc == DescFrom(line, DescStart(Groups(line, f, c1, c2)))
  {
    var m := Groups(line, f, c1, c2);
    assert DescStart(m) == c2 + 1;
  }

  /** The positions of the second and third colons when the file group ends at the colon at `f`. */
  function ColonsAfter(line: string, f: nat): (c: (nat, nat))
    requires IsFileEnd(line, f)
    ensures f + 1 < c.0 && c.0 + 1 < c.1 < |line|
  {
    var ab := PositionFields(line[f + 1..]).value;
    (f + 1 + ab.0, f + 1 + ab.0 + 1 + ab.1)
  }

  /** The digit runs `PositionFields` finds after the colon at `f`, as positions in `line`. */
  lemma ColonsAfterFileEnd(line: string, f: nat)
    requires IsFileEnd(line, f)
    ensures var (c1, c2) := ColonsAfter(line, f);
      && line[c1] == ':' && line[c2] == ':'
      && AllDigits(line[f + 1..c1]) && AllDigits(line[c1 + 1..c2])
  {
    var ab := PositionFields(line[f + 1..]).value;
    FieldsShift(line, f + 1, ab.0, ab.1);
  }

  /** The fields `PositionFields` finds in the text after `k`, as slices of the whole line. */
  lemma FieldsShift(line: string, k: nat, a: nat, b: nat)
    requires k + a + 1 + b < |line|
    requires line[k..][a] == ':' && line[k..][a + 1 + b] == ':'
    requires AllDigits(line[k..][..a]) && AllDigits(line[k..][a + 1..a + 1 + b])
    ensures line[k + a] == ':' && line[k + a + 1 + b] == ':'
    ensures AllDigits(line[k..k + a]) && AllDigits(line[k + a + 1..k + a + 1 + b])
  {
    assert line[k..][..a] == line[k..k + a];
    assert line[k..][a + 1..a + 1 + b] == line[k + a + 1..k + a + 1 + b];
  }

  /** The groups taken at a colon that can end the file group are the pattern's groups. */
  lemma GroupsAtFileEnd(line: string, f: nat)
    requires IsFileEnd(line, f)
    ensures var (c1, c2) := ColonsAfter(line, f);
      |Groups(line, f, c1, c2).file| == f && ErrFields(line, Groups(line, f, c1, c2))
  {
    var (c1, c2) := ColonsAfter(line, f);
    ColonsAfterFileEnd(line, f);
    GroupsPositions(line, f, c1, c2);
    GroupsDesc(line, f, c1, c2);
  }

  /**
   `_ptn_err.match(line)`. A line matches exactly when some colon can end the
   file group, and the match splits the line at the first such colon.
   */
  function MatchErrLine(line: string): (r: Option<ErrMatch>)
    ensures r.None? <==> forall j :: 0 <= j < |line| ==> !IsFileEnd(line, j)
    ensures r.Some? ==> ErrLineParts(line, r.value)
    ensures r.Some? ==> AllDigits(r.value.lineText) && AllDigits(r.value.columnText)
  {
    match FileEnd(line, 0)
    case None => None
    case Some(f) =>
      GroupsAtFileEnd(line, f);
      var (c1, c2) := ColonsAfter(line, f);
      Some(Groups(line, f, c1, c2))
  }

  /** Two colon-closed digit runs at the start are the line and column fields. */
  lemma PositionFieldsOfDigits(d1: string, d2: string, rest: string)
    requires |d1| > 0 && AllDigits(d1) && |d2| > 0 && AllDigits(d2)
    ensures PositionFields(d1 + ":" + d2 + ":" + rest) == Some((|d1|, |d2|))
  {
    var s := d1 + ":" + d2 + ":" + rest;
    assert s == d1 + (":" + d2 + ":" + rest);
    DigitRunStops(d1, ":" + d2 + ":" + rest);
    assert s[|d1| + 1..] == d2 + (":" + rest);
    DigitRunStops(d2, ":" + rest);
  }

  /** Where the parts of "FILE:LINE:COL:DESC" sit in the line. */
  lemma ErrLineLayout(file: string, l: string, c: string, desc: string)
    ensures var line := file + ":" + l + ":" + c + ":" + desc;
      var f := |file|;
      var c1 := f + 1 + |l|;
      var c2 := c1 + 1 + |c|;
      && |line| == c2 + 1 + |desc|
      && line[..f] == file && line[f] == ':'
      && line[f + 1..] == l + ":" + c + ":" + desc
      && line[f + 1..c1] == l && line[c1 + 1..c2] == c && line[c2 + 1..] == desc
  {
    var line := file + ":" + l + ":" + c + ":" + desc;
    assert line == file + (":" + l + ":" + c + ":" + desc);
    assert line[|file| + 1..] == l + ":" + c + ":" + desc;
  }

  /** With no colon in the file part, the first colon closes the file group. */
  lemma FileEndOfParts(file: string, l: string, c: string, desc: string, c1: nat, c2: nat)
    requires forall i :: 0 <= i < |file| ==> file[i] != ':' && file[i] != '\n'
    requires |l| > 0 && AllDigits(l) && |c| > 0 && AllDigits(c)
    requires c1 == |file| + 1 + |l| && c2 == c1 + 1 + |c|
    ensures FileEnd(file + ":" + l + ":" + c + ":" + desc, 0) == Some(|file|)
    ensures ColonsAfter(file + ":" + l + ":" + c + ":" + desc, |file|) == (c1, c2)
  {
    var line := file + ":" + l + ":" + c + ":" + desc;
    ErrLineLayout(file, l, c, desc);
    PositionFieldsOfDigits(l, c, desc);
    assert IsFileEnd(line, |file|);
    forall j | 0 <= j < |file| ensures !IsFileEnd(line, j) {
      assert line[j] == line[..|file|][j];
    }
    ColonsAfterFields(line, |file|, |l|, |c|, c1, c2);
  }

  /**
   A line of the form "FILE:LINE:COL:DESC", with no colon or newline in
   FILE and digits in LINE and COL, matches with those groups, and the
   description group is DESC without its leading whitespace, up to the end
   of its line.
   */
  lemma MatchErrLineOfParts(file: string, l: string, c: string, desc: string)
    requires forall i :: 0 <= i < |file| ==> file[i] != ':' && file[i] != '\n'
    requires |l| > 0 && AllDigits(l) && |c| > 0 && AllDigits(c)
    ensures MatchErrLine(file + ":" + l + ":" + c + ":" + desc) == Some(ErrMatch(file, l, c, RestOfLine(LStrip(desc))))
  {
    var line := file + ":" + l + ":" + c + ":" + desc;
    var f := |file|;
    var c1 := f + 1 + |l|;
    var c2 := c1 + 1 + |c|;
    ErrLineLayout(file, l, c, desc);
    GroupsOfSlices(line, f, c1, c2, file, l, c, desc);
    FileEndOfParts(file, l, c, desc, c1, c2);
    MatchAtColons(line, f, c1, c2);
  }

  /** The match takes its groups at the colon `FileEnd` finds and the two after it. */
  lemma MatchAtColons(line: string, f: nat, c1: nat, c2: nat)
    requires FileEnd(line, 0) == Some(f)
    requires ColonsAfter(line, f) == (c1, c2)
    ensures MatchErrLine(line) == Some(Groups(line, f, c1, c2))
  {
  }

  /** The slices between the colons are the groups. */
  lemma GroupsOfSlices(line: string, f: nat, c1: nat, c2: nat, file: string, l: string, c: string, desc: string)
    requires f < c1 < c2 < |line|
    requires line[..f] == file && line[f + 1..c1] == l && line[c1 + 1..c2] == c && line[c2 + 1..] == desc
    ensures Groups(line, f, c1, c2) == ErrMatch(file, l, c, RestOfLine(LStrip(desc)))
  {
  }

  /** The second and third colons close the digit runs `PositionFields` measures. */
  lemma ColonsAfterFields(line: string, f: nat, a: nat, b: nat, c1: nat, c2: nat)
    requires IsFileEnd(line, f)
    requires PositionFields(line[f + 1..]) == Some((a, b))
    requires c1 == f + 1 + a && c2 == c1 + 1 + b
    ensures ColonsAfter(line, f) == (c1, c2)
  {
  }

  // ---- `found\s+'.*?'\s+((?:\".*?\")|\S+)` ----

  /** A problem token: a double-quoted string on one line, or a run of non-spaces. */
  predicate IsToken(t: string) {
    || (|t| >= 2 && t[0] == '"' && t[|t| - 1] == '"' &&
        forall i :: 0 < i < |t| - 1 ==> t[i] != '"' && t[i] != '\n')
    || (|t| > 0 && forall i :: 0 <= i < |t| ==> !IsSpace(t[i]))
  }

  /** Index of the first `quote` or '\n' in `s`, or `|s|`: where a lazy `.*?` before `quote` can stop. */
  function QuoteOrNewline(s: string, quote: char): (n: nat)
    ensures n <= |s|
    ensures forall i :: 0 <= i < n ==> s[i] != quote && s[i] != '\n'
    ensures n == |s| || s[n] == quote || s[n] == '\n'
  {
    if |s| > 0 && s[0] != quote && s[0] != '\n' then 1 + QuoteOrNewline(s[1..], quote) else 0
  }

  /**
   `u` opens with a double quote that a later double quote closes before
   any newline: the alternative `".*?"` matches there.
   */
  predicate ClosedQuoteAt(u: string) {
    && |u| > 0 && u[0] == '"'
    && var q := QuoteOrNewline(u[1..], '"'); q < |u| - 1 && u[1 + q] == '"'
  }

  /**
   `\s+((?:".*?")|\S+)` at the start of `t`: the group, tried quoted first.
   The group starts right after the whitespace run; it is the shortest
   closed double-quoted string when there is one, and otherwise the whole
   run of non-space characters.
   */
  function TokenAfterQuote(t: string): (r: Option<string>)
    ensures r.Some? <==> 0 < SpaceCount(t) < |t|
    ensures r.Some? ==> IsToken(r.value)
    ensures r.Some? ==> var u := t[SpaceCount(t)..]; |r.value| <= |u| && r.value == u[..|r.value|]
    ensures r.Some? && ClosedQuoteAt(t[SpaceCount(t)..]) ==>
      && |r.value| >= 2 && r.value[0] == '"' && r.value[|r.value| - 1] == '"'
      && forall i :: 0 < i < |r.value| - 1 ==> r.value[i] != '"'
    ensures r.Some? && !ClosedQuoteAt(t[SpaceCount(t)..]) ==> |r.value| == NonSpaceCount(t[SpaceCount(t)..])
  {
    var w := SpaceCount(t);
    if w == 0 || w == |t| then None
    else
      var u := t[w..];
      if ClosedQuoteAt(u) then
        var q := QuoteOrNewline(u[1..], '"');
        var token := u[..q + 2];
        assert forall i :: 0 < i < q + 1 ==> token[i] == u[1..][i - 1];
        Some(token)
      else
        Some(u[..NonSpaceCount(u)])
  }

  /**
   The lazy `'.*?'` from position `k` on: `.*?` can only stop before a
   quote, so each quote up to the first newline is tried in turn, and the
   first after which the rest matches closes it.
   */
  function TokenAfterOpenQuote(desc: string, k: nat): (r: Option<string>)
    requires k <= |desc|
    ensures r.Some? ==> IsToken(r.value)
    decreases |desc| - k
  {
    var q := k + QuoteOrNewline(desc[k..], '\'');
    if q == |desc| || desc[q] == '\n' then None
    else
      match TokenAfterQuote(desc[q + 1..])
      case Some(token) => Some(token)
      case None => TokenAfterOpenQuote(desc, q + 1)
  }

  /** The pattern tried at start position `s`. */
  function TokenAt(desc: string, s: nat): (r: Option<string>)
    requires s <= |desc|
    ensures r.Some? ==> OccursAt(desc, "found", s) && IsToken(r.value)
  {
    if !OccursAt(desc, "found", s) then None
    else
      var w := SpaceCount(desc[s + 5..]);
      var q := s + 5 + w;
      if w == 0 || q == |desc| || desc[q] != '\'' then None
      else TokenAfterOpenQuote(desc, q + 1)
  }

  /** `search` over the matches at start positions `s`, `s + 1`, ...: the first one there is. */
  function FirstMatch(ms: seq<Option<string>>, s: nat): Option<string>
    requires s <= |ms|
    decreases |ms| - s
  {
    if s == |ms| then None
    else match ms[s]
      case Some(t) => Some(t)
      case None => FirstMatch(ms, s + 1)
  }

  /** The search finds nothing exactly when no position from `s` on matches. */
  lemma {:induction false} FirstMatchNone(ms: seq<Option<string>>, s: nat)
    requires s <= |ms|
    ensures FirstMatch(ms, s).None? <==> forall j :: s <= j < |ms| ==> ms[j].None?
    decreases |ms| - s
  {
    if s < |ms| && ms[s].None? {
      FirstMatchNone(ms, s + 1);
    }
  }

  /** What the search finds is the match at the leftmost position from `s` that has one. */
  lemma {:induction false} FirstMatchLeftmost(ms: seq<Option<string>>, s: nat)
    requires s <= |ms|
    ensures FirstMatch(ms, s).Some? ==>
      exists j :: s <= j < |ms| && ms[j] == FirstMatch(ms, s) && forall i :: s <= i < j ==> ms[i].None?
    decreases |ms| - s
  {
    if s < |ms| && ms[s].None? {
      FirstMatchLeftmost(ms, s + 1);
      if FirstMatch(ms, s).Some? {
        var j :| s + 1 <= j < |ms| && ms[j] == FirstMatch(ms, s + 1) && forall i :: s + 1 <= i < j ==> ms[i].None?;
        assert forall i :: s <= i < j ==> ms[i].None?;
      }
    }
  }

  /** The search moves past positions without a match. */
  lemma {:induction false} FirstMatchSkip(ms: seq<Option<string>>, j: nat, s: nat)
    requires j <= s <= |ms|
    requires forall i :: j <= i < s ==> ms[i].None?
    ensures FirstMatch(ms, j) == FirstMatch(ms, s)
    decreases s - j
  {
    if j < s {
      FirstMatchSkip(ms, j + 1, s);
    }
  }

  /** The pattern tried at each start position of `desc`, the end included. */
  function Matches(desc: string): seq<Option<string>> {
    seq(|desc| + 1, j requires 0 <= j <= |desc| => TokenAt(desc, j))
  }

  /** The search over `desc` finds the match at the leftmost start position that has one. */
  lemma MatchesLeftmost(desc: string)
    ensures FirstMatch(Matches(desc), 0).Some? ==>
      exists j :: 0 <= j <= |desc| && TokenAt(desc, j) == FirstMatch(Matches(desc), 0) &&
        forall i :: 0 <= i < j ==> TokenAt(desc, i).None?
  {
    var ms := Matches(desc);
    FirstMatchLeftmost(ms, 0);
    if FirstMatch(ms, 0).Some? {
      var j :| 0 <= j < |ms| && ms[j] == FirstMatch(ms, 0) && forall i :: 0 <= i < j ==> ms[i].None?;
      assert forall i :: 0 <= i < j ==> TokenAt(desc, i) == ms[i];
    }
  }

  /** The search over `desc` finds nothing exactly when no start position matches. */
  lemma MatchesNone(desc: string)
    ensures FirstMatch(Matches(desc), 0).None? <==> forall j :: 0 <= j <= |desc| ==> TokenAt(desc, j).None?
  {
    var ms := Matches(desc);
    FirstMatchNone(ms, 0);
    assert forall j :: 0 <= j <= |desc| ==> TokenAt(desc, j) == ms[j];
  }

  /** `_problem_token.search(desc).group(1)`. */
  function ProblemToken(desc: string): (r: Option<string>)
    ensures r.None? <==> forall j :: 0 <= j <= |desc| ==> TokenAt(desc, j).None?
    ensures r.Some? ==> IsToken(r.value) && |r.value| >= 1
    ensures !Contains(desc, "found") ==> r.None?
  {
    MatchesNone(desc);
    MatchesLeftmost(desc);
    FirstMatch(Matches(desc), 0)
  }

  /** `search` gives the group of the match at the leftmost start position that has one. */
  lemma ProblemTokenLeftmost(desc: string)
    ensures ProblemToken(desc).Some? ==>
      exists j :: 0 <= j <= |desc| && TokenAt(desc, j) == ProblemToken(desc) &&
        forall i :: 0 <= i < j ==> TokenAt(desc, i).None?
  {
    MatchesLeftmost(desc);
  }

  /** `\s+` then a bare token: the token is the group. */
  lemma BareTokenAfterQuote(token: string, rest: string)
    requires |token| > 0 && token[0] != '"'
    requires forall i :: 0 <= i < |token| ==> !IsSpace(token[i])
    requires rest == [] || IsSpace(rest[0])
    ensures TokenAfterQuote(" " + (token + rest)) == Some(token)
  {
    var u := token + rest;
    var t := " " + u;
    assert t[1..] == u && u[0] == token[0];
    assert SpaceCount(t) == 1 by {
      assert SpaceCount(t[1..]) == 0;
    }
    NonSpaceRunThenSpace(token, rest);
    assert u[..|token|] == token;
  }

  /** `\s+` then a string in double quotes: the quoted string is the group, quotes included. */
  lemma QuotedTokenAfterQuote(text: string, rest: string)
    requires forall i :: 0 <= i < |text| ==> text[i] != '"' && text[i] != '\n'
    ensures TokenAfterQuote(" " + ("\"" + text + "\"" + rest)) == Some("\"" + text + "\"")
  {
    var u := "\"" + text + "\"" + rest;
    var t := " " + u;
    assert t[1..] == u && u[0] == '"';
    assert SpaceCount(t) == 1 by {
      assert SpaceCount(t[1..]) == 0;
    }
    assert u[1..] == text + ("\"" + rest);
    QuoteAfter(text, "\"" + rest, '"');
    assert u[1 + |text|] == '"';
    assert u[..|text| + 2] == "\"" + text + "\"";
  }

  /** A run of non-space characters ending the text or followed by whitespace is taken whole by `\S+`. */
  lemma {:induction false} NonSpaceRunThenSpace(token: string, rest: string)
    requires forall i :: 0 <= i < |token| ==> !IsSpace(token[i])
    requires rest == [] || IsSpace(rest[0])
    ensures NonSpaceCount(token + rest) == |token|
  {
    if token != [] {
      assert (token + rest)[1..] == token[1..] + rest;
      NonSpaceRunThenSpace(token[1..], rest);
    } else {
      assert token + rest == rest;
    }
  }

  /** The first quote or newline after a text without either is the quote that follows it. */
  lemma {:induction false} QuoteAfter(text: string, rest: string, quote: char)
    requires forall i :: 0 <= i < |text| ==> text[i] != quote && text[i] != '\n'
    requires |rest| > 0 && rest[0] == quote
    ensures QuoteOrNewline(text + rest, quote) == |text|
  {
    if text != [] {
      assert (text + rest)[1..] == text[1..] + rest;
      QuoteAfter(text[1..], rest, quote);
    }
  }

  /** The search moves past start positions at which no "found" begins. */
  lemma SkipToFound(desc: string, j: nat, s: nat)
    requires j <= s <= |desc|
    requires forall i :: j <= i < s ==> !OccursAt(desc, "found", i)
    ensures FirstMatch(Matches(desc), j) == FirstMatch(Matches(desc), s)
  {
    var ms := Matches(desc);
    forall i | j <= i < s ensures ms[i].None? {
      assert ms[i] == TokenAt(desc, i);
    }
    FirstMatchSkip(ms, j, s);
  }

  /** "found" holds no 'f' after its first letter. */
  lemma NoInnerF(d: string, i: nat, k: nat)
    requires OccursAt(d, "found", i) && i < k < i + 5
    ensures d[k] != 'f'
  {
    assert d[k] == d[i..i + 5][k - i];
  }

  /**
   With no "found" in `pre`, the first "found" of `pre + rest` is the one
   `rest` starts with: one starting inside `pre` and running into `rest`
   would put the 'f' at `|pre|` under one of "ound".
   */
  lemma NoFoundBefore(pre: string, rest: string)
    requires !Contains(pre, "found") && StartsWith(rest, "found")
    ensures forall i :: 0 <= i < |pre| ==> !OccursAt(pre + rest, "found", i)
  {
    var d := pre + rest;
    forall i | 0 <= i < |pre| ensures !OccursAt(d, "found", i) {
      if OccursAt(d, "found", i) {
        if i + 5 <= |pre| {
          assert pre[i..i + 5] == d[i..i + 5];
          assert OccursAt(pre, "found", i);
        } else {
          NoInnerF(d, i, |pre|);
        }
      }
    }
  }

  /** Where the parts of "found 'KIND' tail" sit in the complaint. */
  lemma FoundKindLayout(pre: string, kind: string, tail: string)
    ensures var d, s := pre + "found '" + kind + "' " + tail, |pre|;
      var e := s + 7 + |kind|;
      && |d| == e + 2 + |tail|
      && d[s..s + 5] == "found" && d[s + 5] == ' ' && d[s + 6] == '\'' && d[e] == '\''
      && d[e + 1..] == " " + tail
      && (forall i :: s + 7 <= i < e ==> d[i] == kind[i - s - 7])
  {
    var d, s := pre + "found '" + kind + "' " + tail, |pre|;
    var e := s + 7 + |kind|;
    assert d == pre + "found '" + (kind + ("' " + tail));
    assert d[s..s + 5] == "found";
    assert d[e + 1..] == " " + tail;
  }

  /** `\s+` consumes exactly one space before a quote. */
  lemma OneSpaceBeforeQuote(t: string)
    requires |t| >= 2 && t[0] == ' ' && t[1] == '\''
    ensures SpaceCount(t) == 1
  {
    assert t[1..][0] == '\'';
  }

  /**
   The pattern tried where "found" begins, in "found 'KIND' tail": the kind
   closes at its quote, and the group is the one `\s+` and the token take
   from " " + tail.
   */
  lemma TokenAtFoundKind(pre: string, kind: string, tail: string)
    requires forall i :: 0 <= i < |kind| ==> kind[i] != '\'' && kind[i] != '\n'
    requires TokenAfterQuote(" " + tail).Some?
    ensures TokenAt(pre + "found '" + kind + "' " + tail, |pre|) == TokenAfterQuote(" " + tail)
  {
    var d, k := pre + "found '" + kind + "' " + tail, |pre| + 7;
    FoundKindQuotes(pre, kind, tail);
    var q := k + QuoteOrNewline(d[k..], '\'');
    assert d[q + 1..] == " " + tail;
    OpenQuoteClosed(d, k);
    TokenAtOpenQuote(d, |pre|);
  }

  /**
   In "found 'KIND' tail", "found" is followed by one space and the opening
   quote, and the first quote after that closes the kind, before " " + tail.
   */
  lemma FoundKindQuotes(pre: string, kind: string, tail: string)
    requires forall i :: 0 <= i < |kind| ==> kind[i] != '\'' && kind[i] != '\n'
    ensures var d, s := pre + "found '" + kind + "' " + tail, |pre|;
      var q := s + 7 + QuoteOrNewline(d[s + 7..], '\'');
      && s + 7 <= |d| && OccursAt(d, "found", s)
      && SpaceCount(d[s + 5..]) == 1 && d[s + 6] == '\''
      && q < |d| && d[q] == '\'' && d[q + 1..] == " " + tail
  {
    var d, s := pre + "found '" + kind + "' " + tail, |pre|;
    FoundKindLayout(pre, kind, tail);
    OneSpaceBeforeQuote(d[s + 5..]);
    assert d[s + 7..] == kind + ("' " + tail);
    QuoteAfter(kind, "' " + tail, '\'');
  }

  /** After "found", one space and a quote, the pattern goes on with the lazy group. */
  lemma {:induction false} TokenAtOpenQuote(desc: string, s: nat)
    requires s + 7 <= |desc| && OccursAt(desc, "found", s)
    requires SpaceCount(desc[s + 5..]) == 1 && desc[s + 6] == '\''
    ensures TokenAt(desc, s) == TokenAfterOpenQuote(desc, s + 7)
  {
  }

  /** The first quote after `k` is the closing one when the rest matches after it. */
  lemma {:induction false} OpenQuoteClosed(desc: string, k: nat)
    requires k <= |desc|
    ensures var q := k + QuoteOrNewline(desc[k..], '\'');
      q < |desc| && desc[q] == '\'' && TokenAfterQuote(desc[q + 1..]).Some? ==>
      TokenAfterOpenQuote(desc, k) == TokenAfterQuote(desc[q + 1..])
  {
  }

  /**
   gofmt's "found 'KIND' tail" complaints: with no "found" before that one
   and a token kind free of quotes and newlines, the search picks out the
   group that follows the kind.
   */
  lemma ProblemTokenAfterKind(pre: string, kind: string, tail: string)
    requires !Contains(pre, "found")
    requires forall i :: 0 <= i < |kind| ==> kind[i] != '\'' && kind[i] != '\n'
    requires TokenAfterQuote(" " + tail).Some?
    ensures ProblemToken(pre + "found '" + kind + "' " + tail) == TokenAfterQuote(" " + tail)
  {
    var d := pre + "found '" + kind + "' " + tail;
    TokenAtFoundKind(pre, kind, tail);
    NoFoundBeforeKind(pre, kind, tail);
    ProblemTokenAtFirstFound(d, |pre|);
  }

  lemma NoFoundBeforeKind(pre: string, kind: string, tail: string)
    requires !Contains(pre, "found")
    ensures forall i :: 0 <= i < |pre| ==> !OccursAt(pre + "found '" + kind + "' " + tail, "found", i)
  {
    var rest := "found '" + kind + "' " + tail;
    assert pre + "found '" + kind + "' " + tail == pre + rest;
    assert rest[..5] == "found";
    NoFoundBefore(pre, rest);
  }

  /** The pattern matching where the first "found" begins gives the problem token. */
  lemma ProblemTokenAtFirstFound(desc: string, s: nat)
    requires s <= |desc| && TokenAt(desc, s).Some?
    requires forall i :: 0 <= i < s ==> !OccursAt(desc, "found", i)
    ensures ProblemToken(desc) == TokenAt(desc, s)
  {
    SkipToFound(desc, 0, s);
    assert Matches(desc)[s] == TokenAt(desc, s);
  }

  /**
   A bare token after the kind, as in "found 'IDENT' foo" or a raw string
   "found 'STRING' `a b`", is the problem token up to the next whitespace.
   */
  lemma ProblemTokenBare(pre: string, kind: string, token: string, rest: string)
    requires !Contains(pre, "found")
    requires forall i :: 0 <= i < |kind| ==> kind[i] != '\'' && kind[i] != '\n'
    requires |token| > 0 && token[0] != '"'
    requires forall i :: 0 <= i < |token| ==> !IsSpace(token[i])
    requires rest == [] || IsSpace(rest[0])
    ensures ProblemToken(pre + "found '" + kind + "' " + (token + rest)) == Some(token)
  {
    BareTokenAfterQuote(token, rest);
    ProblemTokenAfterKind(pre, kind, token + rest);
  }

  /**
   A double-quoted string after the kind, as in `found 'STRING' "abc"`, is
   the problem token with its quotes, whatever follows it.
   */
  lemma ProblemTokenQuoted(pre: string, kind: string, text: string, rest: string)
    requires !Contains(pre, "found")
    requires forall i :: 0 <= i < |kind| ==> kind[i] != '\'' && kind[i] != '\n'
    requires forall i :: 0 <= i < |text| ==> text[i] != '"' && text[i] != '\n'
    ensures ProblemToken(pre + "found '" + kind + "' " + ("\"" + text + "\"" + rest)) == Some("\"" + text + "\"")
  {
    QuotedTokenAfterQuote(text, rest);
    ProblemTokenAfterKind(pre, kind, "\"" + text + "\"" + rest);
  }

  // ---- One stderr line, and all of them ----

  /** The column one past the problem: the token's length after the column, or one column. */
  function ColumnEnd(columnStart: int, desc: string): (e: int)
    ensures e > columnStart
    ensures ProblemToken(desc).Some? ==> e == columnStart + |ProblemToken(desc).value|
    ensures ProblemToken(desc).None? ==> e == columnStart + 1
  {
    match ProblemToken(desc)
    case Some(token) => columnStart + |token|
    case None => columnStart + 1
  }

  /**
   The result one gofmt stderr line yields, if any: a line that matches the
   pattern and whose file part mentions the temp file.
   */
  function LineResult(line: string, tmpName: string): (r: Option<LintResult>)
    ensures r.Some? <==> MatchErrLine(line).Some? && Contains(MatchErrLine(line).value.file, tmpName)
    ensures r.Some? ==>
      var m := MatchErrLine(line).value;
      var token := ProblemToken(m.desc);
      && r.value.description == m.desc
      && r.value.severity == Error
      && r.value.span.Some?
      && r.value.span.value.lineStart == r.value.span.value.lineEnd == DecimalValue(m.lineText)
      && r.value.span.value.columnStart == DecimalValue(m.columnText)
      && r.value.span.value.columnEnd ==
           r.value.span.value.columnStart + (if token.Some? then |token.value| else 1)
  {
    match MatchErrLine(line)
    case None => None
    case Some(m) =>
      if !Contains(m.file, tmpName) then None
      else
        Some(MatchResult(m))
  }

  /** The error a matched line describes, on the line and from the column it names. */
  function MatchResult(m: ErrMatch): (r: LintResult)
    requires AllDigits(m.lineText) && AllDigits(m.columnText)
    ensures r.description == m.desc && r.severity == Error && r.span.Some?
    ensures r.span.value.lineStart == r.span.value.lineEnd == DecimalValue(m.lineText)
    ensures r.span.value.columnStart == DecimalValue(m.columnText)
    ensures r.span.value.columnEnd == ColumnEnd(r.span.value.columnStart, m.desc)
  {
    var lineNo, columnStart := DecimalValue(m.lineText), DecimalValue(m.columnText);
    LintResult(m.desc, Error, Some(Span(lineNo, lineNo, columnStart, ColumnEnd(columnStart, m.desc))))
  }

  /** The results of the stderr lines, in order, skipping the lines that yield none. */
  function ErrorResults(errLines: seq<string>, tmpName: string): (results: seq<LintResult>)
    ensures |results| <= |errLines|
  {
    FilterMap(line => LineResult(line, tmpName), errLines)
  }

  /** The results of the first `i + 1` lines: those of the first `i`, then line `i`'s. */
  lemma ErrorResultsStep(errLines: seq<string>, i: nat, tmpName: string)
    requires i < |errLines|
    ensures ErrorResults(errLines[..i + 1], tmpName) ==
      ErrorResults(errLines[..i], tmpName) +
      (match LineResult(errLines[i], tmpName) case Some(r) => [r] case None => [])
  {
    FilterMapStep(line => LineResult(line, tmpName), errLines, i);
  }

  /** A line yields a result only if it mentions the temp file. */
  lemma LineResultMentionsTempFile(line: string, tmpName: string)
    ensures LineResult(line, tmpName).Some? ==> Contains(line, tmpName)
  {
    if LineResult(line, tmpName).Some? {
      var m := MatchErrLine(line).value;
      assert line[..|m.file|] == m.file;
      ContainsInPrefix(line, |m.file|, tmpName);
    }
  }

  /** Every result is an error on one line whose column span is not empty. */
  lemma ErrorResultsWellFormed(errLines: seq<string>, tmpName: string)
    ensures forall r :: r in ErrorResults(errLines, tmpName) ==>
      && r.severity == Error && r.span.Some?
      && r.span.value.lineStart == r.span.value.lineEnd
      && r.span.value.columnStart < r.span.value.columnEnd
  {
    var f := line => LineResult(line, tmpName);
    FilterMapMembers(f, errLines);
    forall r | r in ErrorResults(errLines, tmpName)
      ensures r.severity == Error && r.span.Some?
      ensures r.span.value.lineStart == r.span.value.lineEnd
      ensures r.span.value.columnStart < r.span.value.columnEnd
    {
      var i :| 0 <= i < |errLines| && f(errLines[i]) == Some(r);
    }
  }

  /** A stderr text in which no line mentions the temp file yields nothing. */
  lemma ErrorResultsNeedTempFile(errLines: seq<string>, tmpName: string)
    requires forall i :: 0 <= i < |errLines| ==> !Contains(errLines[i], tmpName)
    ensures ErrorResults(errLines, tmpName) == []
  {
    var f := line => LineResult(line, tmpName);
    FilterMapMembers(f, errLines);
    if ErrorResults(errLines, tmpName) != [] {
      var r := ErrorResults(errLines, tmpName)[0];
      var i :| 0 <= i < |errLines| && f(errLines[i]) == Some(r);
      LineResultMentionsTempFile(errLines[i], tmpName);
    }
  }

  /**
   What one gofmt run yields: nothing if it failed to run or wrote nothing
   to stderr, otherwise at most one error per stderr line, each on one line
   with a non-empty column span.
   */
  function GofmtResults(run: ToolRun, tmpName: string): (results: seq<LintResult>)
    ensures run.FailedToRun? || run.stderr == [] ==> results == []
    ensures run.Ran? ==> |results| <= |SplitLines(run.stderr)|
    ensures forall r :: r in results ==>
      && r.severity == Error && r.span.Some?
      && r.span.value.lineStart == r.span.value.lineEnd
      && r.span.value.columnStart < r.span.value.columnEnd
  {
    match run
    case FailedToRun => []
    case Ran(_, stderr) =>
      if stderr == [] then []
      else
        ErrorResultsWellFormed(SplitLines(stderr), tmpName);
        ErrorResults(SplitLines(stderr), tmpName)
  }

  /** What starting a process reports: its output, or that it could not be run. */
  datatype ToolRun = Ran(stdout: string, stderr: string) | FailedToRun

  /** The loop over gofmt's stderr lines, keeping the result of each line that yields one. */
  method CollectErrors(errLines: seq<string>, tmpName: string) returns (acc: seq<LintResult>)
    ensures acc == ErrorResults(errLines, tmpName)
  {
    acc := [];
    var i := 0;
    while i < |errLines|
      invariant 0 <= i <= |errLines|
      invariant acc == ErrorResults(errLines[..i], tmpName)
    {
      var line := errLines[i];
      var result := LineResult(line, tmpName);
      if result.Some? {
        acc := acc + [result.value];
      }
      ErrorResultsStep(errLines, i, tmpName);
      i := i + 1;
    }
    assert errLines[..|errLines|] == errLines;
  }

  class GolangLinter {
    /** `[gofmt path, "-e"]`, or `None` when gofmt was not found. */
    var fmtCmdStart: Option<seq<string>>

    constructor (executablePath: string, existingPaths: set<string>)
      ensures fmtCmdStart.Some? <==> executablePath != [] && FormatToolPath(executablePath) in existingPaths
      ensures fmtCmdStart.Some? ==> fmtCmdStart.value == [FormatToolPath(executablePath), "-e"]
    {
      new;
      UpdateGoTools(executablePath, existingPaths);
    }

    /**
     Resets the gofmt command, then sets it when a go location is given and
     the gofmt derived from it exists.
     */
    method UpdateGoTools(goLocation: string, existingPaths: set<string>)
      modifies this
      ensures fmtCmdStart.Some? <==> goLocation != [] && FormatToolPath(goLocation) in existingPaths
      ensures fmtCmdStart.Some? ==> fmtCmdStart.value == [FormatToolPath(goLocation), "-e"]
    {
      fmtCmdStart := None;
      if goLocation != [] {
        var goFormatToolPath := FormatToolPath(goLocation);
        if goFormatToolPath in existingPaths {
          fmtCmdStart := Some([goFormatToolPath, "-e"]);
        }
      }
    }

    /** A change of the "golangDefaultLocation" preference re-derives the gofmt command. */
    method Observe(topic: string, golangDefaultLocation: string, existingPaths: set<string>)
      modifies this
      ensures topic == "golangDefaultLocation" ==>
        (fmtCmdStart.Some? <==> golangDefaultLocation != [] && FormatToolPath(golangDefaultLocation) in existingPaths)
      ensures topic == "golangDefaultLocation" && fmtCmdStart.Some? ==>
        fmtCmdStart.value == [FormatToolPath(golangDefaultLocation), "-e"]
      ensures topic != "golangDefaultLocation" ==> fmtCmdStart == old(fmtCmdStart)
    {
      if topic == "golangDefaultLocation" {
        UpdateGoTools(golangDefaultLocation, existingPaths);
      }
    }

    /**
     Runs gofmt on `text`, saved as `tmpName`, with the user environment
     stripped of non-string values, and turns its stderr into results.
     */
    method LintWithText(text: string, tmpName: string, userEnv: map<string, EnvValue>,
                        runTool: (seq<string>, map<string, EnvValue>, string) -> ToolRun)
      returns (results: Option<seq<LintResult>>)
      ensures fmtCmdStart.None? ==> results.None?
      ensures fmtCmdStart.Some? ==>
        results == Some(GofmtResults(runTool(fmtCmdStart.value + [tmpName], StringEntries(userEnv), text), tmpName))
    {
      if fmtCmdStart.None? {
        return None;
      }
      var cmd := fmtCmdStart.value + [tmpName];
      var env := FilterEnv(userEnv);
      assert env == StringEntries(userEnv);
      var run := runTool(cmd, env, text);
      if run.FailedToRun? || run.stderr == [] {
        return Some([]);
      }
      var errLines := SplitLines(run.stderr);
      var acc := CollectErrors(errLines, tmpName);
      return Some(acc);
    }
  }
}

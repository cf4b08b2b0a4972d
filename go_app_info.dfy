/**
 Finding out which Go a `go` executable is (`KoGolangInfoEx`): the
 executable is run as `go version` with GOROOT set to the directory above
 the executable's directory, and the version is read from the start of its
 output. Running the executable is the parameter `runGo(argv, env)`, which
 gives its standard output and standard error; which paths exist is the set
 `existingPaths`.
 */
module GoAppInfo {
  import opened Optional
  import opened PyText

  // ---- `os.path.dirname` (POSIX) ----

  /** One past the last '/' in `p`, or 0: where the last path component starts. */
  function LastSlashEnd(p: string): (i: nat)
    ensures i <= |p|
    ensures i > 0 ==> p[i - 1] == '/'
    ensures forall j :: i <= j < |p| ==> p[j] != '/'
  {
    if p == [] then 0
    else if p[|p| - 1] == '/' then |p|
    else LastSlashEnd(p[..|p| - 1])
  }

  predicate AllSlashes(s: string) {
    forall i :: 0 <= i < |s| ==> s[i] == '/'
  }

  /** `s.rstrip('/')`. */
  function RStripSlashes(s: string): (r: string)
    ensures |r| <= |s| && r == s[..|r|] && AllSlashes(s[|r|..])
    ensures r == [] || r[|r| - 1] != '/'
  {
    if s != [] && s[|s| - 1] == '/' then
      var r := RStripSlashes(s[..|s| - 1]);
      assert s[|r|..] == s[..|s| - 1][|r|..] + ['/'];
      r
    else s
  }

  /**
   `r` is a directory of `p` as `posixpath.dirname` forms it: a prefix of
   the part up to the last slash that leaves only slashes of that part, empty
   exactly when there is no slash, and ending in '/' only when it is all
   slashes and keeps every slash of that part.
   */
  predicate IsDirname(p: string, r: string) {
    var e := LastSlashEnd(p);
    && |r| <= e && r == p[..|r|]
    && (forall k :: |r| <= k < e ==> p[k] == '/')
    && (r == [] <==> e == 0)
    && (r != [] && r[|r| - 1] == '/' ==> AllSlashes(r) && |r| == e)
  }

  /**
   `posixpath.dirname`: everything before the last component, without its
   trailing slashes unless it consists of slashes only.
   */
  function Dirname(p: string): (r: string)
    ensures |r| <= |p| && r == p[..|r|]
    ensures r == [] <==> forall j :: 0 <= j < |p| ==> p[j] != '/'
    ensures r == [] || AllSlashes(r) || r[|r| - 1] != '/'
    ensures forall i, j :: |r| <= i < j < |p| && p[i] != '/' ==> p[j] != '/'
    ensures IsDirname(p, r)
  {
    var head := p[..LastSlashEnd(p)];
    if head != [] && !AllSlashes(head) then
      var r := RStripSlashes(head);
      DirnameRest(p, r);
      r
    else
      DirnameRest(p, head);
      head
  }

  /** Only one string is a directory of `p` in that sense: the one `Dirname` gives. */
  lemma DirnameUnique(p: string, r: string)
    requires IsDirname(p, r)
    ensures r == Dirname(p)
  {
    var d := Dirname(p);
    DirnameNotShorter(p, r, d);
    DirnameNotShorter(p, d, r);
    assert r == p[..|r|] && d == p[..|d|];
  }

  /** Of two directories of `p` in that sense, neither is longer than the other. */
  lemma DirnameNotShorter(p: string, a: string, b: string)
    requires IsDirname(p, a) && IsDirname(p, b)
    ensures |b| <= |a|
  {
    if b != [] {
      if b[|b| - 1] == '/' {
        assert a != [] && |a| <= |b| && a[|a| - 1] == b[|a| - 1];
      } else {
        assert b[|b| - 1] == p[|b| - 1];
      }
    }
  }

  /** After a prefix of the part up to the last slash that leaves only slashes of it, a slash-free name follows. */
  lemma DirnameRest(p: string, r: string)
    requires |r| <= LastSlashEnd(p) && AllSlashes(p[|r|..LastSlashEnd(p)])
    ensures forall i, j :: |r| <= i < j < |p| && p[i] != '/' ==> p[j] != '/'
  {
    var e := LastSlashEnd(p);
    forall i, j | |r| <= i < j < |p| && p[i] != '/' ensures p[j] != '/' {
      if i < e {
        SlashIn(p, |r|, e, i);
      }
    }
  }

  lemma SlashIn(p: string, a: nat, e: nat, i: nat)
    requires a <= i < e <= |p| && AllSlashes(p[a..e])
    ensures p[i] == '/'
  {
    assert p[a..e][i - a] == p[i];
  }

  /** The directory of `dir + "/" + name` is `dir`, for a name without '/' and a dir not ending in '/'. */
  lemma DirnameOfChild(dir: string, name: string)
    requires dir != [] && dir[|dir| - 1] != '/'
    requires forall i :: 0 <= i < |name| ==> name[i] != '/'
    ensures Dirname(dir + "/" + name) == dir
  {
    var p := dir + "/" + name;
    assert LastSlashEnd(p) == |dir| + 1 by {
      LastSlashEndSkips(dir + "/", name);
    }
    var head := p[..|dir| + 1];
    assert head == dir + "/";
    assert head[|dir| - 1] != '/';
    assert RStripSlashes(head) == dir by {
      assert head[..|head| - 1] == dir;
    }
  }

  /** The last slash lies before a tail without slashes. */
  lemma {:induction false} LastSlashEndSkips(s: string, t: string)
    requires s != [] && s[|s| - 1] == '/'
    requires forall i :: 0 <= i < |t| ==> t[i] != '/'
    ensures LastSlashEnd(s + t) == |s|
  {
    if t != [] {
      var u := s + t;
      assert u[..|u| - 1] == s + t[..|t| - 1];
      LastSlashEndSkips(s, t[..|t| - 1]);
    } else {
      assert s + t == s;
    }
  }

  /** GOROOT of an executable installed as `<root>/bin/<name>` is `<root>`. */
  lemma GorootOfInstalledBinary(root: string, name: string)
    requires root != [] && root[|root| - 1] != '/'
    requires forall i :: 0 <= i < |name| ==> name[i] != '/'
    ensures Dirname(Dirname(root + "/bin/" + name)) == root
  {
    DirnameOfBinChild(root, name);
    assert root + "/bin" == root + "/" + "bin";
    DirnameOfChild(root, "bin");
  }

  /** The directory of `<root>/bin/<name>` is `<root>/bin`. */
  lemma DirnameOfBinChild(root: string, name: string)
    requires root != [] && root[|root| - 1] != '/'
    requires forall i :: 0 <= i < |name| ==> name[i] != '/'
    ensures Dirname(root + "/bin/" + name) == root + "/bin"
  {
    assert root + "/bin/" + name == (root + "/bin") + "/" + name;
    DirnameOfChild(root + "/bin", name);
  }

  /** The environment `go version` runs with: the user's, with GOROOT set to the executable's grandparent directory. */
  function GoEnv(userEnv: map<string, string>, goExe: string): (env: map<string, string>)
    ensures "GOROOT" in env && env["GOROOT"] == Dirname(Dirname(goExe))
    ensures forall k :: k != "GOROOT" ==> (k in env <==> k in userEnv)
    ensures forall k :: k != "GOROOT" && k in userEnv ==> env[k] == userEnv[k]
  {
    userEnv["GOROOT" := Dirname(Dirname(goExe))]
  }

  // ---- `go version\s+go\s*(\d+(?:\.\d+){0,2})` ----

  /**
   The length of the longest prefix of `s` made of at most `parts`
   dot-separated digit runs (greedy `\d+(?:\.\d+){0,parts-1}`).
   */
  function DottedLength(s: string, parts: nat): (n: nat)
    requires parts >= 1
    ensures n <= |s|
    decreases parts
  {
    var d := DigitCount(s);
    if parts > 1 && d < |s| && s[d] == '.' && DigitCount(s[d + 1..]) > 0 then
      d + 1 + DottedLength(s[d + 1..], parts - 1)
    else d
  }

  /** `v` is one to `parts` non-empty digit runs joined by '.'. */
  predicate DottedDigits(v: string, parts: nat)
    decreases parts
  {
    var d := DigitCount(v);
    && parts >= 1
    && d > 0
    && (d == |v| || (v[d] == '.' && DottedDigits(v[d + 1..], parts - 1)))
  }

  /** What the greedy match takes is well formed: digit runs joined by dots. */
  lemma {:induction false} DottedLengthShape(s: string, parts: nat)
    requires parts >= 1 && DigitCount(s) > 0
    ensures DottedDigits(s[..DottedLength(s, parts)], parts)
    decreases parts
  {
    var d := DigitCount(s);
    var v := s[..DottedLength(s, parts)];
    DigitCountPrefix(s, v);
    if parts > 1 && d < |s| && s[d] == '.' && DigitCount(s[d + 1..]) > 0 {
      DottedLengthShape(s[d + 1..], parts - 1);
      assert v[d] == '.';
      assert v[d + 1..] == s[d + 1..][..DottedLength(s[d + 1..], parts - 1)];
    } else {
      assert |v| == d;
    }
  }

  /** No longer prefix of digit runs is possible: the greedy match is the longest. */
  lemma {:induction false} DottedLengthLongest(s: string, w: string, parts: nat)
    requires parts >= 1 && StartsWith(s, w) && DottedDigits(w, parts)
    ensures |w| <= DottedLength(s, parts)
    decreases parts
  {
    var m := DigitCount(w);
    DigitCountPrefix(s, w);
    if m < |w| {
      var d := DigitCount(s);
      assert d == m;
      assert s[d] == '.';
      var s1, w1 := s[d + 1..], w[m + 1..];
      assert DottedDigits(w1, parts - 1);
      assert s1[..|w1|] == w1;
      DigitCountPrefix(s1, w1);
      assert DigitCount(s1) > 0;
      assert DottedLength(s, parts) == d + 1 + DottedLength(s1, parts - 1);
      DottedLengthLongest(s1, w1, parts - 1);
    }
  }

  /** Digit runs of a prefix: as long as the whole string's, unless the prefix ends inside the run. */
  lemma {:induction false} DigitCountPrefix(s: string, w: string)
    requires StartsWith(s, w)
    ensures DigitCount(w) <= DigitCount(s)
    ensures DigitCount(w) < |w| ==> DigitCount(w) == DigitCount(s)
  {
    if w != [] && IsDigit(w[0]) {
      assert s[1..][..|w| - 1] == w[1..];
      DigitCountPrefix(s[1..], w[1..]);
    }
  }

  /** Where the version digits start, if the output has the `go version … go` header. */
  function VersionStart(out: string): (k: Option<nat>)
    ensures k.Some? ==>
      && StartsWith(out, "go version")
      && k.value < |out| && IsDigit(out[k.value])
  {
    if !StartsWith(out, "go version") then None
    else
      var w := SpaceCount(out[10..]);
      var j := 10 + w;
      if w == 0 || !OccursAt(out, "go", j) then None
      else
        var k := j + 2 + SpaceCount(out[j + 2..]);
        if k < |out| && IsDigit(out[k]) then Some(k) else None
  }

  /** `pattern.match(stdout).group(1)`: up to three dot-separated digit runs after the header. */
  function MatchVersion(out: string): (r: Option<string>)
    ensures r.Some? <==> VersionStart(out).Some?
    ensures r.Some? ==> StartsWith(out[VersionStart(out).value..], r.value) && DottedDigits(r.value, 3)
  {
    match VersionStart(out)
    case None => None
    case Some(k) =>
      assert DigitCount(out[k..]) > 0 by {
        assert out[k..][0] == out[k];
      }
      DottedLengthShape(out[k..], 3);
      assert out[k..k + DottedLength(out[k..], 3)] == out[k..][..DottedLength(out[k..], 3)];
      Some(out[k..k + DottedLength(out[k..], 3)])
  }

  /**
   `out` is "go version", `w1 > 0` whitespace characters, "go", `w2`
   whitespace characters and a digit, then anything.
   */
  predicate VersionLine(out: string, w1: nat, w2: nat) {
    && 10 + w1 + 2 + w2 < |out|
    && StartsWith(out, "go version")
    && w1 > 0 && AllSpace(out[10..10 + w1])
    && out[10 + w1..10 + w1 + 2] == "go"
    && AllSpace(out[10 + w1 + 2..10 + w1 + 2 + w2])
    && IsDigit(out[10 + w1 + 2 + w2])
  }

  /** The greedy `\s` run stops at the first character that is not whitespace. */
  lemma {:induction false} SpaceRunStops(sp: string, t: string)
    requires AllSpace(sp)
    requires |t| > 0 && !IsSpace(t[0])
    ensures SpaceCount(sp + t) == |sp|
  {
    if sp != [] {
      assert (sp + t)[1..] == sp[1..] + t;
      SpaceRunStops(sp[1..], t);
    }
  }

  /** The whitespace run of `s` from `i`, when a non-space follows at `i + w`. */
  lemma SpaceRunAt(s: string, i: nat, w: nat)
    requires i + w < |s| && AllSpace(s[i..i + w]) && !IsSpace(s[i + w])
    ensures SpaceCount(s[i..]) == w
  {
    assert s[i..] == s[i..i + w] + s[i + w..];
    SpaceRunStops(s[i..i + w], s[i + w..]);
  }

  /** On a version line the digits start after the second whitespace run. */
  lemma VersionLineStart(out: string, w1: nat, w2: nat)
    requires VersionLine(out, w1, w2)
    ensures VersionStart(out) == Some(10 + w1 + 2 + w2)
  {
    assert out[10 + w1] == 'g';
    SpaceRunAt(out, 10, w1);
    SpaceRunAt(out, 10 + w1 + 2, w2);
  }

  /**
   The output is accepted exactly when it is a version line: "go version",
   at least one whitespace character, "go", optional whitespace, a digit.
   */
  lemma MatchVersionIff(out: string)
    ensures MatchVersion(out).Some? <==> exists w1, w2 :: VersionLine(out, w1, w2)
  {
    if MatchVersion(out).Some? {
      var w1 := SpaceCount(out[10..]);
      var w2 := SpaceCount(out[10 + w1 + 2..]);
      assert out[10..][..w1] == out[10..10 + w1];
      assert out[10 + w1 + 2..][..w2] == out[10 + w1 + 2..10 + w1 + 2 + w2];
      assert VersionLine(out, w1, w2);
    }
    if exists w1, w2 :: VersionLine(out, w1, w2) {
      var w1, w2 :| VersionLine(out, w1, w2);
      VersionLineStart(out, w1, w2);
    }
  }

  /**
   On a version line the version is the longest prefix of up to three
   dot-separated digit runs following the header.
   */
  lemma MatchVersionLongest(out: string, w1: nat, w2: nat)
    requires VersionLine(out, w1, w2)
    ensures
      var k := 10 + w1 + 2 + w2;
      var v := MatchVersion(out);
      && v.Some? && StartsWith(out[k..], v.value) && DottedDigits(v.value, 3)
      && forall w :: StartsWith(out[k..], w) && DottedDigits(w, 3) ==> |w| <= |v.value|
  {
    var k := 10 + w1 + 2 + w2;
    VersionLineStart(out, w1, w2);
    var n := DottedLength(out[k..], 3);
    var v := out[k..k + n];
    MatchVersionAt(out, k);
    assert v == out[k..][..n];
    assert |v| == n;
    assert StartsWith(out[k..], v);
    DottedLengthShape(out[k..], 3);
    assert DottedDigits(v, 3);
    assert MatchVersion(out).value == v;
    forall w | StartsWith(out[k..], w) && DottedDigits(w, 3) ensures |w| <= |v| {
      DottedLengthLongest(out[k..], w, 3);
    }
  }

  /** The version read from the digits at `k`. */
  lemma MatchVersionAt(out: string, k: nat)
    requires VersionStart(out) == Some(k)
    ensures MatchVersion(out) == Some(out[k..k + DottedLength(out[k..], 3)])
  {
  }

  /** A digit followed by '.' is a one-digit run. */
  lemma OneDigitRun(s: string)
    requires |s| >= 2 && IsDigit(s[0]) && s[1] == '.'
    ensures DigitCount(s) == 1
  {
    assert s[1..][0] == '.';
  }

  /** Of "1.2.3.4…" the greedy match takes "1.2.3". */
  lemma ThreeOfFourComponents(s: string)
    requires StartsWith(s, "1.2.3.4")
    ensures DottedLength(s, 3) == 5 && s[..5] == "1.2.3"
  {
    assert s[0] == '1' && s[1] == '.' && s[2] == '2' && s[3] == '.' && s[4] == '3' && s[5] == '.' && s[6] == '4' by {
      assert forall i :: 0 <= i < 7 ==> s[..7][i] == s[i];
    }
    OneDigitRun(s);
    OneDigitRun(s[2..]);
    assert s[2..][2..] == s[4..];
    OneDigitRun(s[4..]);
    assert DottedLength(s[4..], 1) == 1;
    assert DottedLength(s[2..], 2) == 3;
  }

  /** The version keeps at most three components: "go1.2.3.4" reads as "1.2.3". */
  lemma FourComponentsTruncated(out: string, w1: nat, w2: nat)
    requires VersionLine(out, w1, w2)
    requires StartsWith(out[10 + w1 + 2 + w2..], "1.2.3.4")
    ensures MatchVersion(out) == Some("1.2.3")
  {
    var k := 10 + w1 + 2 + w2;
    VersionLineStart(out, w1, w2);
    MatchVersionAt(out, k);
    ThreeOfFourComponents(out[k..]);
    assert out[k..k + 5] == out[k..][..5];
  }

  // ---- `getVersionForBinary` ----

  /** The errors raised: the executable is missing, or its output holds no version. */
  datatype NsError = FileNotFound | Unexpected(message: string)

  /** The message of the unexpected-output error. */
  function NoVersionMessage(goExe: string, stdout: string, stderr: string): string {
    "Can't find a version in `" + goExe + " -v` output of '" + stdout + "'/'" + stderr + "'"
  }

  /** What `getVersionForBinary` returns or raises, given what `go version` printed. */
  function VersionFromOutput(goExe: string, stdout: string, stderr: string): (r: Result<string, NsError>)
    ensures r.Ok? <==> exists w1, w2 :: VersionLine(stdout, w1, w2)
    ensures r.Ok? ==> DottedDigits(r.value, 3)
    ensures r.Err? ==> r.error == Unexpected(NoVersionMessage(goExe, stdout, stderr))
  {
    MatchVersionIff(stdout);
    match MatchVersion(stdout)
    case Some(version) => Ok(version)
    case None => Err(Unexpected(NoVersionMessage(goExe, stdout, stderr)))
  }

  /**
   Runs `goExe version` with GOROOT pointing at the installation the
   executable belongs to and reads the version from its output; a missing
   executable is reported before anything runs.
   */
  method GetVersionForBinary(goExe: string, existingPaths: set<string>, userEnv: map<string, string>,
                             runGo: (seq<string>, map<string, string>) -> (string, string))
    returns (r: Result<string, NsError>)
    ensures goExe !in existingPaths ==> r == Err(FileNotFound)
    ensures goExe in existingPaths ==>
      var (stdout, stderr) := runGo([goExe, "version"], GoEnv(userEnv, goExe));
      r == VersionFromOutput(goExe, stdout, stderr)
  {
    if goExe !in existingPaths {
      return Err(FileNotFound);
    }
    var argv := [goExe, "version"];
    var env := userEnv;
    env := env["GOROOT" := Dirname(Dirname(goExe))];
    var (stdout, stderr) := runGo(argv, env);
    var version := MatchVersion(stdout);
    if version.Some? {
      return Ok(version.value);
    }
    return Err(Unexpected(NoVersionMessage(goExe, stdout, stderr)));
  }
}

/**
 The `go build` linter (`KoGoLinter`): the buffer is compiled from a temp
 file, the compiler's output has the temp file's name replaced by the
 document's, and every output line after the first becomes one lint result.
 A line of the form `./<name>:<n>: <message>` is placed on line `n` of the
 buffer, spanning the line's text without its surrounding whitespace.
 Running the compiler is a parameter: `runBuild(command)` is the exit status
 and standard output of `command`.
 */
module GoBuildLinter {
  import opened Optional
  import opened PyText
  import opened LintResults

  /** The one exception the result builder can raise: a line number past the buffer's lines. */
  datatype PyError = IndexError

  /** Python's `xs[i]`: negative indexes count from the end, anything else out of range raises. */
  function PyIndex<T>(xs: seq<T>, i: int): (r: Result<T, PyError>)
    ensures r.Ok? <==> -|xs| <= i < |xs|
    ensures 0 <= i < |xs| ==> r == Ok(xs[i])
    ensures -|xs| <= i < 0 ==> r == Ok(xs[|xs| + i])
  {
    if 0 <= i < |xs| then Ok(xs[i])
    else if -|xs| <= i < 0 then Ok(xs[|xs| + i])
    else Err(IndexError)
  }

  // ---- The pattern `./<name>:(\d+): (.*)` ----

  /**
   The characters with a special meaning in a pattern other than '.': a file
   name holding none of them reads literally except that each '.' matches
   any character but '\n'.
   */
  predicate NoRegexMeta(name: string) {
    forall i :: 0 <= i < |name| ==> name[i] !in "^$*+?{}[]\\|()"
  }

  /** `'%s' % filename`: a missing file name prints as "None". */
  function PatternName(filename: Option<string>): string {
    match filename
    case Some(name) => name
    case None => "None"
  }

  /** The literal start of the pattern, before `(\d+)`. */
  function PatternHead(name: string): string {
    "./" + name + ":"
  }

  /** Pattern character `p` accepts message character `c`. */
  predicate CharMatches(p: char, c: char) {
    if p == '.' then c != '\n' else c == p
  }

  /** The pattern head matches the start of `message`. */
  predicate HeadMatches(message: string, head: string) {
    |head| <= |message| && forall i :: 0 <= i < |head| ==> CharMatches(head[i], message[i])
  }

  /** `re.match(head + '(\d+): (.*)', message)`: the two groups, if it matches. */
  function MatchLocation(message: string, head: string): (r: Option<(string, string)>)
    ensures r.Some? ==>
      var (digits, msg) := r.value;
      var k := |head| + |digits|;
      && HeadMatches(message, head)
      && |digits| > 0 && AllDigits(digits)
      && k + 2 <= |message|
      && message[|head|..k] == digits && message[k..k + 2] == ": "
      && msg == RestOfLine(message[k + 2..])
  {
    if !HeadMatches(message, head) then None
    else
      var rest := message[|head|..];
      var a := DigitCount(rest);
      if a == 0 || a + 2 > |rest| || rest[a] != ':' || rest[a + 1] != ' ' then None
      else
        assert rest[..a] == message[|head|..|head| + a];
        assert rest[a..a + 2] == message[|head| + a..|head| + a + 2];
        assert rest[a + 2..] == message[|head| + a + 2..];
        Some((rest[..a], RestOfLine(rest[a + 2..])))
  }

  /** Every message with the head, digits and ": " matches, with those digits as the line group. */
  lemma MatchLocationComplete(message: string, head: string, digits: string, tail: string)
    requires HeadMatches(message, head)
    requires |digits| > 0 && AllDigits(digits)
    requires message == message[..|head|] + digits + ": " + tail
    ensures MatchLocation(message, head) == Some((digits, RestOfLine(tail)))
  {
    var rest := message[|head|..];
    assert rest == digits + (": " + tail);
    DigitRunStops(digits, ": " + tail);
    assert rest[..|digits|] == digits;
    assert rest[|digits| + 2..] == tail;
  }

  /** Because '.' is a wildcard, a name with a '.' also accepts other characters in its place. */
  lemma DotAcceptsAnyChar(name: string, message: string, k: nat, c: char)
    requires k < |name| && name[k] == '.' && c != '\n'
    requires HeadMatches(message, PatternHead(name))
    ensures HeadMatches(message[2 + k := c], PatternHead(name))
  {
    var head := PatternHead(name);
    assert head[2 + k] == '.';
    forall i | 0 <= i < |head| ensures CharMatches(head[i], message[2 + k := c][i]) {
      if i != 2 + k {
        assert message[2 + k := c][i] == message[i];
      }
    }
  }

  // ---- One result ----

  /** The columns of a line: one past its leading whitespace, and one past its text without trailing whitespace. */
  function LineColumns(line: string): (cols: (int, int))
    ensures 1 <= cols.0 <= cols.1
  {
    var contents := RStrip(line);
    (|contents| - |Strip(contents)| + 1, |contents| + 1)
  }

  /**
   `_buildResult(text, message, filename)`: an error described by the whole
   message, unless the message names the file, a line and a message; then
   the error is that message on that line of `text`. A line number past the
   lines of `text` raises, and line 0 picks the last line, as Python's
   negative index does.
   */
  function BuildResult(text: string, message: string, filename: Option<string>): (r: Result<LintResult, PyError>)
    requires NoRegexMeta(PatternName(filename))
    ensures var m := MatchLocation(message, PatternHead(PatternName(filename)));
      && (m.None? ==> r == Ok(LintResult(message, Error, None)))
      && (r.Ok? ==> r.value.severity == Error && (r.value.span.None? <==> m.None?))
      && (r.Ok? && m.Some? ==> r.value.description == m.value.1)
  {
    match MatchLocation(message, PatternHead(PatternName(filename)))
    case None => Ok(LintResult(message, Error, None))
    case Some((digits, msg)) => PlacedResult(SplitLines(text), DecimalValue(digits), msg)
  }

  /**
   The error `msg` placed on line `lineNo` (counting from 1) of `lines`,
   spanning that line's columns; line 0 picks the last line, and a line
   past the end raises.
   */
  function PlacedResult(lines: seq<string>, lineNo: nat, msg: string): (r: Result<LintResult, PyError>)
    ensures r.Ok? <==> lineNo <= |lines| && (lineNo == 0 ==> |lines| > 0)
    ensures r.Ok? && 1 <= lineNo ==>
      var cols := LineColumns(lines[lineNo - 1]);
      r.value == LintResult(msg, Error, Some(Span(lineNo, lineNo, cols.0, cols.1)))
    ensures r.Ok? && lineNo == 0 ==>
      var cols := LineColumns(lines[|lines| - 1]);
      r.value == LintResult(msg, Error, Some(Span(lineNo, lineNo, cols.0, cols.1)))
  {
    match PyIndex(lines, lineNo - 1)
    case Err(e) => Err(e)
    case Ok(line) =>
      var (columnStart, columnEnd) := LineColumns(line);
      Ok(LintResult(msg, Error, Some(Span(lineNo, lineNo, columnStart, columnEnd))))
  }

  /**
   The columns of a placed result: the span starts at the line's first
   non-whitespace character and ends one past its last, counting from 1;
   a blank line gives the empty span at column 1.
   */
  lemma LineColumnsSpec(line: string)
    ensures LineColumns(line).0 == LineColumns(line).1 <==> AllSpace(line)
    ensures AllSpace(line) ==> LineColumns(line) == (1, 1)
    ensures !AllSpace(line) ==> LineColumns(line).0 == SpaceCount(line) + 1
    ensures !AllSpace(line) ==> !IsSpace(line[LineColumns(line).0 - 1])
    ensures LineColumns(line).1 == |line| - TrailingSpaceCount(line) + 1
  {
    if AllSpace(line) {
      BlankLineColumns(line);
    } else {
      TextLineColumns(line);
    }
  }

  /** A blank line is stripped to nothing. */
  lemma BlankLineColumns(line: string)
    requires AllSpace(line)
    ensures LineColumns(line) == (1, 1)
  {
    assert TrailingSpaceCount(line) == |line|;
  }

  /** A line with text: its first non-whitespace character starts the span, which is not empty. */
  lemma TextLineColumns(line: string)
    requires !AllSpace(line)
    ensures LineColumns(line).0 == SpaceCount(line) + 1 < LineColumns(line).1
    ensures !IsSpace(line[LineColumns(line).0 - 1])
  {
    var contents := RStrip(line);
    var lead := SpaceCount(contents);
    BlankBeforeTrailing(line);
    assert contents[lead] == line[lead];
    assert contents[..lead] == line[..lead];
    SpaceCountAt(line, lead);
    LineColumnsStart(line);
  }

  /** When the text before the trailing whitespace is all whitespace, so is the line. */
  lemma BlankBeforeTrailing(line: string)
    ensures SpaceCount(RStrip(line)) == |RStrip(line)| ==> AllSpace(line)
  {
    var n := TrailingSpaceCount(line);
    var contents := RStrip(line);
    if SpaceCount(contents) == |contents| {
      forall i | 0 <= i < |line| ensures IsSpace(line[i]) {
        if i < |contents| {
          assert contents[..|contents|][i] == line[i];
        } else {
          assert line[|line| - n..][i - (|line| - n)] == line[i];
        }
      }
    }
  }

  /** `\s*` stops at the first character that is not whitespace. */
  lemma SpaceCountAt(s: string, k: nat)
    requires k < |s| && AllSpace(s[..k]) && !IsSpace(s[k])
    ensures SpaceCount(s) == k
  {
  }

  /** The text without trailing whitespace has none left, so `strip` only removes the leading run. */
  lemma LineColumnsStart(line: string)
    ensures LineColumns(line).0 == SpaceCount(RStrip(line)) + 1
  {
    var contents := RStrip(line);
    assert TrailingSpaceCount(contents) == 0;
    assert RStrip(contents) == contents;
  }

  /**
   Building a result raises exactly when the message matches and its line
   number is past the buffer's lines, or is 0 while the buffer has no line.
   */
  lemma BuildResultRaises(text: string, message: string, filename: Option<string>)
    requires NoRegexMeta(PatternName(filename))
    ensures BuildResult(text, message, filename).Err? <==>
      var m := MatchLocation(message, PatternHead(PatternName(filename)));
      && m.Some?
      && (DecimalValue(m.value.0) > |SplitLines(text)| || (DecimalValue(m.value.0) == 0 && text == []))
  {
  }

  /** A placed result sits on its line number, between the line's outer whitespace. */
  lemma BuildResultPlacement(text: string, message: string, filename: Option<string>)
    requires NoRegexMeta(PatternName(filename))
    requires BuildResult(text, message, filename).Ok?
    requires BuildResult(text, message, filename).value.span.Some?
    ensures
      var span := BuildResult(text, message, filename).value.span.value;
      var lines := SplitLines(text);
      && span.lineStart == DecimalValue(MatchLocation(message, PatternHead(PatternName(filename))).value.0)
      && 1 <= span.columnStart <= span.columnEnd
      && span.lineStart == span.lineEnd <= |lines|
      && (1 <= span.lineStart ==>
            (span.columnStart, span.columnEnd) == LineColumns(lines[span.lineStart - 1]))
      && (span.lineStart == 0 ==>
            (|lines| > 0 && (span.columnStart, span.columnEnd) == LineColumns(lines[|lines| - 1])))
  {
    var m := MatchLocation(message, PatternHead(PatternName(filename)));
    BuildResultIsPlaced(text, message, filename);
    PlacedSpan(SplitLines(text), DecimalValue(m.value.0), m.value.1);
  }

  /** A message that names the file and a line is placed by `PlacedResult`. */
  lemma BuildResultIsPlaced(text: string, message: string, filename: Option<string>)
    requires NoRegexMeta(PatternName(filename))
    requires MatchLocation(message, PatternHead(PatternName(filename))).Some?
    ensures var m := MatchLocation(message, PatternHead(PatternName(filename))).value;
      BuildResult(text, message, filename) == PlacedResult(SplitLines(text), DecimalValue(m.0), m.1)
  {
  }

  /** The span of a placed result, field by field. */
  lemma PlacedSpan(lines: seq<string>, lineNo: nat, msg: string)
    requires PlacedResult(lines, lineNo, msg).Ok?
    ensures
      var span := PlacedResult(lines, lineNo, msg).value.span.value;
      && span.lineStart == span.lineEnd == lineNo <= |lines|
      && 1 <= span.columnStart <= span.columnEnd
      && (1 <= lineNo ==> (span.columnStart, span.columnEnd) == LineColumns(lines[lineNo - 1]))
      && (lineNo == 0 ==> |lines| > 0 && (span.columnStart, span.columnEnd) == LineColumns(lines[|lines| - 1]))
  {
  }

  // ---- All of the output ----

  /** The result of each output line, raised or not. */
  function BuildResults(text: string, lines: seq<string>, baseName: string): (rs: seq<Result<LintResult, PyError>>)
    requires NoRegexMeta(baseName)
    ensures |rs| == |lines|
    ensures forall i :: 0 <= i < |lines| ==> rs[i] == BuildResult(text, lines[i], Some(baseName))
  {
    seq(|lines|, i requires 0 <= i < |lines| => BuildResult(text, lines[i], Some(baseName)))
  }

  /** The results of the output lines, in order, or the error of the first line that raises. */
  function LineResults(text: string, lines: seq<string>, baseName: string): (r: Result<seq<LintResult>, PyError>)
    requires NoRegexMeta(baseName)
    ensures r.Ok? <==> forall i :: 0 <= i < |lines| ==> BuildResult(text, lines[i], Some(baseName)).Ok?
    ensures r.Ok? ==> |r.value| == |lines|
    ensures r.Ok? ==>
      forall i :: 0 <= i < |lines| ==> r.value[i] == BuildResult(text, lines[i], Some(baseName)).value
  {
    CollectOk(BuildResults(text, lines, baseName))
  }

  /** Every result of the output lines is an error. */
  lemma LineResultsAreErrors(text: string, lines: seq<string>, baseName: string)
    requires NoRegexMeta(baseName)
    requires LineResults(text, lines, baseName).Ok?
    ensures forall r :: r in LineResults(text, lines, baseName).value ==> r.severity == Error
  {
    var results := LineResults(text, lines, baseName).value;
    forall r | r in results ensures r.severity == Error {
      var i :| 0 <= i < |results| && results[i] == r;
      assert BuildResult(text, lines[i], Some(baseName)).Ok?;
    }
  }

  /** A raising line is the first line whose result raises. */
  lemma LineResultsFirstError(text: string, lines: seq<string>, baseName: string)
    requires NoRegexMeta(baseName)
    requires LineResults(text, lines, baseName).Err?
    ensures exists i ::
      && 0 <= i < |lines|
      && BuildResult(text, lines[i], Some(baseName)) == Err(LineResults(text, lines, baseName).error)
      && forall j :: 0 <= j < i ==> BuildResult(text, lines[j], Some(baseName)).Ok?
  {
    var rs := BuildResults(text, lines, baseName);
    CollectOkFirstError(rs);
  }

  /** The results of the first `i + 1` lines: those of the first `i`, then line `i`'s, or its error. */
  lemma LineResultsStep(text: string, lines: seq<string>, i: nat, baseName: string)
    requires NoRegexMeta(baseName)
    requires i < |lines| && LineResults(text, lines[..i], baseName).Ok?
    ensures LineResults(text, lines[..i + 1], baseName) ==
      match BuildResult(text, lines[i], Some(baseName))
      case Err(e) => Err(e)
      case Ok(r) => Ok(LineResults(text, lines[..i], baseName).value + [r])
  {
    var rs := BuildResults(text, lines, baseName);
    assert BuildResults(text, lines[..i], baseName) == rs[..i];
    assert BuildResults(text, lines[..i + 1], baseName) == rs[..i + 1];
    CollectOkStep(rs, i);
  }

  /** Python's `xs[1:]`: everything after the first element, or nothing. */
  function Tail<T>(xs: seq<T>): (r: seq<T>)
    ensures |r| == if xs == [] then 0 else |xs| - 1
    ensures forall i :: 0 <= i < |r| ==> r[i] == xs[i + 1]
  {
    if xs == [] then [] else xs[1..]
  }

  /** What a lint yields: nothing for a blank buffer, else results, or the exception raised. */
  datatype BuildOutcome = NotLinted | Linted(results: seq<LintResult>) | Raised(error: PyError)

  /** What `go build` reports: its exit status and standard output. */
  datatype BuildRun = BuildRun(retval: int, output: string)

  /** `['go', 'build', '-o', dest, source]`. */
  function BuildCommand(destName: string, sourceShortName: string): seq<string> {
    ["go", "build", "-o", destName, sourceShortName]
  }

  /** The output lines after the first, with the temp file's name replaced by the document's. */
  function ReportedLines(output: string, sourceShortName: string, docBaseName: string): seq<string> {
    Tail(SplitLines(Replace(output, sourceShortName, docBaseName)))
  }

  /**
   `lint_with_text`: a blank buffer is not linted; a build that succeeds
   yields no result; a failed build with output yields one result per
   output line after the first; a failed build without output yields one
   "Unexpected error".
   */
  function LintOutcome(text: string, sourceShortName: string, docBaseName: string, run: BuildRun): (o: BuildOutcome)
    requires NoRegexMeta(docBaseName)
    ensures o == NotLinted <==> Strip(text) == []
    ensures Strip(text) != [] && run.retval == 0 ==> o == Linted([])
    ensures o.Raised? ==> run.retval != 0 && run.output != [] && o.error == IndexError
    ensures o.Linted? ==> forall r :: r in o.results ==> r.severity == Error
  {
    if Strip(text) == [] then NotLinted
    else if run.retval == 0 then Linted([])
    else if run.output != [] then ReportedOutcome(text, ReportedLines(run.output, sourceShortName, docBaseName), docBaseName)
    else UnexpectedOutcome(text)
  }

  /** A failed build's reported lines: a result for each, or the first exception. */
  function ReportedOutcome(text: string, lines: seq<string>, baseName: string): (o: BuildOutcome)
    requires NoRegexMeta(baseName)
    ensures o.Linted? || o.Raised?
    ensures o.Linted? ==> forall r :: r in o.results ==> r.severity == Error
  {
    match LineResults(text, lines, baseName)
    case Ok(results) =>
      LineResultsAreErrors(text, lines, baseName);
      Linted(results)
    case Err(e) => Raised(e)
  }

  /**
   A failed build with no output: the result of the message "Unexpected
   error", which never names a file, so it is one unplaced error.
   */
  function UnexpectedOutcome(text: string): (o: BuildOutcome)
    ensures o == Linted([LintResult("Unexpected error", Error, None)])
  {
    assert !CharMatches(PatternHead("None")[1], "Unexpected error"[1]);
    match BuildResult(text, "Unexpected error", None)
    case Ok(result) => Linted([result])
    case Err(e) => Raised(e)
  }

  /** A blank buffer is never compiled, and a successful build reports nothing. */
  lemma BlankOrCleanBuild(text: string, sourceShortName: string, docBaseName: string, run: BuildRun)
    requires NoRegexMeta(docBaseName)
    ensures AllSpace(text) ==> LintOutcome(text, sourceShortName, docBaseName, run) == NotLinted
    ensures !AllSpace(text) && run.retval == 0 ==> LintOutcome(text, sourceShortName, docBaseName, run) == Linted([])
  {
    StripEmptyIffAllSpace(text);
  }

  /**
   A failed build with output gives exactly one result per reported line, in
   order, unless some reported line raises.
   */
  lemma OneResultPerLine(text: string, sourceShortName: string, docBaseName: string, run: BuildRun)
    requires NoRegexMeta(docBaseName)
    requires !AllSpace(text) && run.retval != 0 && run.output != []
    ensures
      var lines := ReportedLines(run.output, sourceShortName, docBaseName);
      var outcome := LintOutcome(text, sourceShortName, docBaseName, run);
      && (outcome.Linted? <==> forall i :: 0 <= i < |lines| ==> BuildResult(text, lines[i], Some(docBaseName)).Ok?)
      && (outcome.Linted? ==> |outcome.results| == |lines|)
      && (outcome.Linted? ==>
            forall i :: 0 <= i < |lines| ==> outcome.results[i] == BuildResult(text, lines[i], Some(docBaseName)).value)
      && (!outcome.Linted? ==> outcome == Raised(IndexError))
  {
    StripEmptyIffAllSpace(text);
  }

  /** The linter object: it keeps nothing between lints. */
  class GoBuildLinterService {
    constructor ()
    {
    }

    /**
     Compiles the buffer saved as `sourceShortName` into `destName` and
     collects a result per reported line.
     */
    method LintWithText(text: string, sourceShortName: string, destName: string, docBaseName: string,
                        runBuild: seq<string> -> BuildRun)
      returns (outcome: BuildOutcome)
      requires NoRegexMeta(docBaseName)
      ensures outcome == LintOutcome(text, sourceShortName, docBaseName, runBuild(BuildCommand(destName, sourceShortName)))
    {
      if Strip(text) == [] {
        return NotLinted;
      }
      var compilationCommand := ["go", "build", "-o", destName, sourceShortName];
      var run := runBuild(compilationCommand);
      var results: seq<LintResult> := [];
      if run.retval != 0 {
        if run.output != [] {
          var output := Replace(run.output, sourceShortName, docBaseName);
          var lines := Tail(SplitLines(output));
          var i := 0;
          while i < |lines|
            invariant 0 <= i <= |lines|
            invariant LineResults(text, lines[..i], docBaseName) == Ok(results)
          {
            var result := BuildResult(text, lines[i], Some(docBaseName));
            LineResultsStep(text, lines, i, docBaseName);
            if result.Err? {
              return Raised(result.error);
            }
            results := results + [result.value];
            i := i + 1;
          }
          assert lines[..|lines|] == lines;
        } else {
          var result := BuildResult(text, "Unexpected error", None);
          if result.Err? {
            return Raised(result.error);
          }
          results := results + [result.value];
        }
      }
      return Linted(results);
    }
  }
}

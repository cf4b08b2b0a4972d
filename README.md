# Go language support for Komodo, modelled in Dafny

This project models the decision and text-processing logic of the Komodo Go
plugin and proves what it promises. Running `go`, `gofmt` and `gocode` is
not modelled: each tool's output is an input, and the host objects are plain
records or function-typed parameters. The model covers five parts.

- **The gofmt linter** (`GoFmtLinter`, from `components/koGoLanguage.py`).
  - It derives the gofmt path from the go path.
  - It keeps the `-e` command start in the `GolangLinter` object and resets it
    when the `golangDefaultLocation` preference changes.
  - It strips non-string values from the environment.
  - It turns each stderr line `file:line:column: description` into an error
    result, provided the file part mentions the temp file.
  - A complaint of the form `found 'KIND' token` makes the result's column
    span as wide as the token.
- **The language defaults** (`GoLanguagePrefs`, also from
  `components/koGoLanguage.py`).
  - The global preferences are a map from names to values.
  - The language object fills in missing tool locations.
  - On a first start it writes the Go editor settings.
  - It registers the GoFmt formatter once, guarded by the
    `haveInstalledGoFormatter` flag.
- **The `go build` linter** (`GoBuildLinter`, from
  `components/koGo_linter.py`).
  - A blank buffer is not linted, and a successful build reports nothing.
  - A failed build with output yields one result per output line after the
    first, once the temp name is replaced by the document's name.
  - A failed build without output yields one "Unexpected error".
  - A line `./<name>:<n>: <msg>` is placed on line `n`, and its columns span
    that line's text without its outer whitespace.
- **Completion** (`GoCompletion`, from `pylib/lang_go.py`).
  - The buffer's trigger is decided by the character before the cursor.
  - The language object chooses between the ordinary trigger and a "names"
    trigger, and remembers the type of the last trigger it returned
    (`GoLangIntel`).
  - gocode's entries become completions or a calltip, without the PANIC
    entries.
- **Version detection** (`GoAppInfo`, from `components/koGoAppInfo.py`).
  - `go version` runs with GOROOT set to the executable's grandparent
    directory.
  - The version is read from the start of its output.
  - A missing executable and unreadable output are errors.

Shared modules:

- `Optional` holds the Option and Result types and an order-keeping filter.
- `PyText` holds Python 2 byte-string behaviour: whitespace is
  `" \t\n\r\v\f"`, `\d` is `[0-9]`, and `.` is anything but `'\n'`. It also
  models `strip`, `splitlines` (on `\n`, `\r` and `\r\n`) and `replace`.
- `LintResults` holds the lint record.

Each regular expression is a hand-written recogniser. A lazy `.*?` stops at
the first position where the rest of the pattern matches. A greedy run
takes the longest stretch.

Where this description and a looser reading of the plugin differ, the model
follows the code:

- The gofmt linter drops stderr lines that do not match. The go build linter
  does not: a line that does not match becomes an unplaced result described
  by the whole line.
- On a first start (no `golangDefaultLocation` yet), the three `Go/` editor
  settings are written whatever they were.
- The "names" trigger is built by `trg_from_pos`. When that is the buffer's
  trigger function, the trigger is of type object-members, call-signature
  or any, never "names". The remembered type then never becomes "names",
  so the `pos + 2` retry and the tie-break on a previous names trigger are
  never taken. `BufferTriggersAreNotNames` and `NamesNeverRemembered` prove
  this.

## Model

| member | source | states |
|---|---|---|
| Optional.FilterMap | pylib/lang_go.py:170 | a filter keeps at most as many items as it is given |
| Optional.FilterMapAppend | components/koGoLanguage.py:231-251 | filtering a concatenation gives the filtered parts concatenated, so order is kept |
| Optional.FilterMapStep | components/koGoLanguage.py:231-251 | one more item adds exactly that item's result, if it has one, at the end |
| Optional.FilterMapMembers | pylib/lang_go.py:170 | every kept result comes from some item, and every item with a result has it kept |
| PyText.ContainsInPrefix | components/koGoLanguage.py:235 | a substring of a prefix is a substring of the whole string |
| PyText.SpaceCount | components/koGoLanguage.py:200 | the greedy `\s*` run is all whitespace and stops at the first non-space |
| PyText.DigitCount | components/koGoLanguage.py:200 | the greedy `\d+` run is all digits and stops at the first non-digit |
| PyText.DigitRunStops | components/koGoLanguage.py:200 | a digit run followed by a non-digit is taken whole by `\d+`, and no further |
| PyText.NewlineIndex | components/koGoLanguage.py:200 | the greedy `.*` stops at the first newline and crosses none |
| PyText.TrailingSpaceCount | components/koGo_linter.py:134 | `rstrip` removes exactly the trailing whitespace run |
| PyText.StripEmptyIffAllSpace | components/koGo_linter.py:87-88 | `text.strip()` is empty exactly when the text is all whitespace |
| PyText.SplitLines | components/koGoLanguage.py:229 | `splitlines` gives lines without line breaks, and at least one line for a non-empty text |
| PyText.SplitLinesJoinLines | components/koGoLanguage.py:229 | splitting the newline-joined lines gives back exactly those lines, none lost or invented |
| PyText.ReplaceAbsent | components/koGo_linter.py:118 | output that does not mention the temp name is left unchanged by the replacement |
| PyText.ReplaceFirst | components/koGo_linter.py:118 | the first occurrence of the temp name becomes the document name, the text before it is copied, and the replacement goes on after it |
| PyText.ReplaceKeepsLine | components/koGo_linter.py:118 | replacing within one line by a one-line name creates no new line |
| GoFmtLinter.FormatToolPath | components/koGoLanguage.py:185-188 | the gofmt path is 3 longer than the go path; with ".exe" (any case) it is the stem plus "fmt.exe", otherwise the go path plus "fmt" |
| GoFmtLinter.FormatToolOfExe | components/koGoLanguage.py:185-186 | a go path ending in ".exe" in any case gives the stem followed by "fmt.exe" |
| GoFmtLinter.FormatToolOfPlain | components/koGoLanguage.py:187-188 | ".../go" gives ".../gofmt" |
| GoFmtLinter.FilterEnv | components/koGoLanguage.py:213-218 | the two loops remove exactly the non-string entries and keep every string entry's value |
| GoFmtLinter.PositionFields | components/koGoLanguage.py:200 | `(\d+):(\d+):` is two non-empty digit runs, each closed by a colon |
| GoFmtLinter.PositionFieldsOfDigits | components/koGoLanguage.py:200 | two digit runs, each closed by a colon, are read as the line and column fields with exactly their lengths |
| GoFmtLinter.FileEnd | components/koGoLanguage.py:200 | the lazy file group ends at the first colon that can end it, and no earlier position can |
| GoFmtLinter.NewlineEndsFileGroup | components/koGoLanguage.py:200 | no colon at or after a newline can end the file group, since `.` does not cross it |
| GoFmtLinter.GroupsAtFileEnd | components/koGoLanguage.py:200 | groups cut at the colons after a possible file end are the pattern's four groups |
| GoFmtLinter.ColonsAfter | components/koGoLanguage.py:200 | the line and column colons lie after the file colon, in order, within the line |
| GoFmtLinter.ColonsAfterFileEnd | components/koGoLanguage.py:200 | the line and column groups are digit runs closed by colons |
| GoFmtLinter.MatchErrLine | components/koGoLanguage.py:232 | a line matches exactly when some colon can end the file group, and the match takes the first such colon with line, column and description groups |
| GoFmtLinter.FileEndOfParts | components/koGoLanguage.py:200 | in "FILE:LINE:COL:DESC" with no colon in FILE, the file group ends at the first colon, and the line and column colons follow the two digit runs |
| GoFmtLinter.MatchErrLineOfParts | components/koGoLanguage.py:200 | every line "FILE:LINE:COL:DESC" with a colon- and newline-free FILE and digit LINE and COL matches, with those groups and DESC without leading whitespace, up to its line end |
| GoFmtLinter.QuoteOrNewline | components/koGoLanguage.py:201 | the lazy `.*?` before a quote can stop only at the first quote or newline, with neither before it |
| GoFmtLinter.QuoteAfter | components/koGoLanguage.py:201 | after a text free of the quote and of newlines, the first stop is the quote that follows the text |
| GoFmtLinter.TokenAfterQuote | components/koGoLanguage.py:201 | `\s+(...)` matches exactly when whitespace is followed by more text; the group is a token that starts right after the whitespace; when a double quote there is closed before any newline the group runs to the first closing quote with no quote inside, and otherwise it is the whole run of non-space characters |
| GoFmtLinter.TokenAfterOpenQuote | components/koGoLanguage.py:201 | whatever the lazy `'.*?'` lets through is a token |
| GoFmtLinter.TokenAt | components/koGoLanguage.py:201 | a match at a start position begins with "found" and yields a token |
| GoFmtLinter.FirstMatchNone | components/koGoLanguage.py:240 | scanning start positions in order finds nothing exactly when no position from the start on matches |
| GoFmtLinter.FirstMatchLeftmost | components/koGoLanguage.py:240 | a find is the match at a position from the start on before which no position matches |
| GoFmtLinter.FirstMatchSkip | components/koGoLanguage.py:240 | positions that do not match can be skipped without changing the find |
| GoFmtLinter.MatchesNone | components/koGoLanguage.py:240 | the scan over a description finds nothing exactly when no start position matches |
| GoFmtLinter.MatchesLeftmost | components/koGoLanguage.py:240 | the scan over a description finds the match at the leftmost matching start position |
| GoFmtLinter.ProblemToken | components/koGoLanguage.py:240 | `search` gives nothing exactly when no start position matches; a find is a non-empty token, and a description without "found" has none |
| GoFmtLinter.ProblemTokenLeftmost | components/koGoLanguage.py:240 | the token `search` gives is the group of the leftmost matching start position |
| GoFmtLinter.BareTokenAfterQuote | components/koGoLanguage.py:201 | after one space, a bare token followed by the end of text or by whitespace and anything else is the whole group |
| GoFmtLinter.QuotedTokenAfterQuote | components/koGoLanguage.py:201 | after one space, a double-quoted string is the group, quotes included, whatever follows it |
| GoFmtLinter.SkipToFound | components/koGoLanguage.py:240 | the search gives the same result from any earlier position when no "found" begins in between |
| GoFmtLinter.NoFoundBefore | components/koGoLanguage.py:240 | a prefix without "found", followed by "found", holds no start of "found", not even one running into what follows |
| GoFmtLinter.FoundKindQuotes | components/koGoLanguage.py:201 | in "found 'KIND' " with a KIND free of quotes and newlines, "found" is followed by one space and a quote, and the lazy kind stops at the quote after KIND, followed by a space and the tail |
| GoFmtLinter.TokenAtOpenQuote | components/koGoLanguage.py:201 | after "found", one space and a quote, the match continues with the lazy quoted kind |
| GoFmtLinter.OpenQuoteClosed | components/koGoLanguage.py:201 | the first quote closes the kind when the token group matches after it |
| GoFmtLinter.TokenAtFoundKind | components/koGoLanguage.py:201 | at "found 'KIND' " followed by any tail the group `\s+` and the token take from the tail, the match yields exactly that group |
| GoFmtLinter.ProblemTokenAfterKind | components/koGoLanguage.py:240-242 | in a complaint with no "found" before "found 'KIND' ", the search picks out exactly the group after the kind, whatever the tail |
| GoFmtLinter.ProblemTokenBare | components/koGoLanguage.py:240-242 | in "… found 'KIND' token rest" with a bare token followed by nothing or by whitespace, the problem token is that token |
| GoFmtLinter.ProblemTokenQuoted | components/koGoLanguage.py:240-242 | in `… found 'KIND' "text"…`, the problem token is the quoted string with its quotes |
| GoFmtLinter.ColumnEnd | components/koGoLanguage.py:240-244 | the end column is past the start column: by the problem token's length when there is one, by one otherwise |
| GoFmtLinter.LineResult | components/koGoLanguage.py:231-250 | a line yields a result exactly when it matches and its file part mentions the temp file; that result is an error described by the description group, on the parsed line number, from the parsed column to the column end above |
| GoFmtLinter.ErrorResults | components/koGoLanguage.py:231-251 | there are never more results than stderr lines |
| GoFmtLinter.ErrorResultsStep | components/koGoLanguage.py:231-251 | the results of one more line are the earlier results, then that line's |
| GoFmtLinter.LineResultMentionsTempFile | components/koGoLanguage.py:234-236 | a line that yields a result mentions the temp file |
| GoFmtLinter.ErrorResultsWellFormed | components/koGoLanguage.py:237-250 | every result is an error on a single line with columnStart < columnEnd |
| GoFmtLinter.ErrorResultsNeedTempFile | components/koGoLanguage.py:231-236 | stderr in which no line mentions the temp file yields no result |
| GoFmtLinter.GofmtResults | components/koGoLanguage.py:220-251 | a failed run or empty stderr yields no result; otherwise at most one result per stderr line, each an error on one line with a non-empty column span |
| GoFmtLinter.CollectErrors | components/koGoLanguage.py:231-251 | the loop over stderr lines collects exactly the results of the matching lines, in order |
| GoFmtLinter.GolangLinter.constructor | components/koGoLanguage.py:164-170 | the command is set exactly when the executable path is non-empty and its gofmt exists; it is that gofmt with "-e" |
| GoFmtLinter.GolangLinter.UpdateGoTools | components/koGoLanguage.py:181-190 | the command is reset, then set to the gofmt path and "-e" exactly when the location is non-empty and that gofmt exists |
| GoFmtLinter.GolangLinter.Observe | components/koGoLanguage.py:177-179 | a change of "golangDefaultLocation" re-derives the command; other topics leave it unchanged |
| GoFmtLinter.GolangLinter.LintWithText | components/koGoLanguage.py:194-252 | no command gives no result set; otherwise gofmt runs on the temp file with the string-only environment; a failed run or empty stderr gives no results, and otherwise the results of the stderr lines |
| GoLanguagePrefs.WithDefault | components/koGoLanguage.py:89-92 | a key that is present keeps its value, a missing one gets the default, and no other key changes |
| GoLanguagePrefs.LocationDefaultsKeepFormatterKeys | components/koGoLanguage.py:89-97 | the location defaults leave the installed flag and the formatter list as they were |
| GoLanguagePrefs.WithGoDefaults | components/koGoLanguage.py:89-116 | no preference is removed, the three tool locations end up present, and afterwards the formatter is marked installed |
| GoLanguagePrefs.LocationsKept | components/koGoLanguage.py:89-94 | each tool location ends up present; a set one keeps its value and a missing one becomes "" |
| GoLanguagePrefs.EditorSettingsOnFirstStart | components/koGoLanguage.py:93-97 | without a go location the editor settings become utf-8, width 8 and tabs; with one they are untouched |
| GoLanguagePrefs.FormatterRegisteredOnce | components/koGoLanguage.py:99-116 | afterwards the flag is set; while it was unset the uuid is appended once and the formatter stored; once set the list is untouched |
| GoLanguagePrefs.GoDefaultsIdempotent | components/koGoLanguage.py:89-116 | a second start changes nothing |
| GoLanguagePrefs.OtherPrefsUntouched | components/koGoLanguage.py:89-116 | preferences the constructor does not name are left as they were |
| GoLanguagePrefs.GlobalPrefs.constructor | components/koGoLanguage.py:86-87 | the service starts with the given preferences |
| GoLanguagePrefs.GlobalPrefs.AddGoDefaults | components/koGoLanguage.py:89-116 | the step-by-step updates leave exactly the preferences the defaults and registration describe |
| GoBuildLinter.MatchLocation | components/koGo_linter.py:130 | a match means the head matches, then a non-empty digit run, ": " and the rest of the line as the message group |
| GoBuildLinter.MatchLocationComplete | components/koGo_linter.py:130 | every message of that form matches, with its digits and the rest as the groups |
| GoBuildLinter.DotAcceptsAnyChar | components/koGo_linter.py:130 | because the name is not escaped, a '.' in it accepts any other character but a newline |
| GoBuildLinter.LineColumns | components/koGo_linter.py:134-138 | 1 <= columnStart <= columnEnd |
| GoBuildLinter.LineColumnsSpec | components/koGo_linter.py:134-138 | a blank line gives (1, 1), and only a blank line gives equal columns; otherwise columnStart is one past the leading whitespace, at the first non-space character; columnEnd is always one past the line without its trailing whitespace |
| GoBuildLinter.BuildResult | components/koGo_linter.py:125-136 | the pattern is built from the file name, or from "None" when there is none (`PatternName`); an unmatched message gives an unplaced error described by the whole message; a result is always an error, placed exactly when the message matches, and then described by the message group |
| GoBuildLinter.PlacedResult | components/koGo_linter.py:132-138 | a matched message is placed exactly when its line number is within the text (0 needing a non-empty text), on that line number, with the columns of that line or, for 0, of the last line |
| GoBuildLinter.BuildResultRaises | components/koGo_linter.py:130-134 | building raises exactly when the message matches and its line number is past the text's lines, or is 0 for an empty text |
| GoBuildLinter.BuildResultPlacement | components/koGo_linter.py:130-138 | a placed result lies on the line number the digit group spells, within the text; its columns are that line's, or the last line's for line 0 |
| Optional.CollectOk | components/koGo_linter.py:119-120 | gathering succeeds exactly when every result is a value, and then gives those values in order |
| Optional.CollectOkFirstError | components/koGo_linter.py:119-120 | a gathered error is that of the first result that is an error |
| Optional.CollectOkStep | components/koGo_linter.py:119-120 | gathering one more result adds its value, or gives its error |
| GoBuildLinter.LineResults | components/koGo_linter.py:119-120 | all lines succeed exactly when each one does, and then there is one result per line, in order |
| GoBuildLinter.LineResultsFirstError | components/koGo_linter.py:119-120 | the exception raised is that of the first line that raises, and every earlier line succeeds |
| GoBuildLinter.LineResultsAreErrors | components/koGo_linter.py:119-136 | every result of the output lines is an error |
| GoBuildLinter.LineResultsStep | components/koGo_linter.py:119-120 | one more line adds its result, or its error |
| GoBuildLinter.LintOutcome | components/koGo_linter.py:84-123 | a buffer is left unlinted exactly when it is blank; a successful build gives no results; only a failed build with output can raise, and then IndexError; every result is an error |
| GoBuildLinter.ReportedOutcome | components/koGo_linter.py:116-120 | the reported lines give results, all errors, or an exception |
| GoBuildLinter.UnexpectedOutcome | components/koGo_linter.py:121-122 | a failed build without output gives exactly one unplaced "Unexpected error" |
| GoBuildLinter.BlankOrCleanBuild | components/koGo_linter.py:87-116 | a blank buffer is not linted, and a successful build gives no results |
| GoBuildLinter.OneResultPerLine | components/koGo_linter.py:116-120 | a failed build with output gives one result per line after the first, in order, unless a line raises IndexError |
| GoBuildLinter.GoBuildLinterService.LintWithText | components/koGo_linter.py:84-123 | the lint runs `go build -o dest source`, and its loop produces the outcome above |
| GoCompletion.TrgFromPos | pylib/lang_go.py:192-207 | no trigger before position 2; otherwise a Go trigger at the position with the given implicit flag, of one of the three kinds |
| GoCompletion.TrgFromPosKind | pylib/lang_go.py:198-207 | the kind is object-members exactly after '.', and call-signature (a calltip) exactly after '(' |
| GoCompletion.NamesTrigger | pylib/lang_go.py:103-117 | a names trigger is asked for exactly at a position past 0 in style 1 or 2 whose preceding run is known and more than three back, at four past that run's start; otherwise there is none |
| GoCompletion.NamesTriggerPlacement | pylib/lang_go.py:103-117 | a names trigger needs a style of 1 or 2 and a known preceding run; it lies 4 past that run's start, not past the examined position, and is explicit |
| GoCompletion.ChooseTrigger | pylib/lang_go.py:125-135 | the choice is one of the two, exists when either does, and is the rightmost; on a tie names wins exactly when the last type was not "names" |
| GoCompletion.PrecedingTrigger | pylib/lang_go.py:79-139 | no trigger without gocode; with it, the rightmost of the ordinary and the names trigger, and one whenever either exists; the ordinary trigger (`OrdinaryTrigger`) is looked for from pos + 2 when pos is not the current position and the last trigger was a names trigger, else from pos |
| GoCompletion.NamesNeverRemembered | pylib/lang_go.py:86-139 | with helpers that never make a "names" trigger, the remembered type never becomes "names" |
| GoCompletion.BufferTriggersAreNotNames | pylib/lang_go.py:201-207 | triggers made by the buffer's trigger function are never of the "names" kind |
| GoCompletion.CompletionType | pylib/lang_go.py:68-77 | a slice type gives "@variable", and otherwise a map type gives "%variable" |
| GoCompletion.CompletionTypeOfClass | pylib/lang_go.py:48-72 | for other types, the five Go classes are renamed and any other class passes through |
| GoCompletion.SliceWinsOverMap | pylib/lang_go.py:73-76 | a slice of maps is a slice |
| GoCompletion.DropPanicMembers | pylib/lang_go.py:170 | exactly the entries whose class is not PANIC remain |
| GoCompletion.DropPanicAppend | pylib/lang_go.py:170 | dropping PANIC entries keeps order |
| GoCompletion.DropPanicNone | pylib/lang_go.py:170 | without PANIC entries nothing is dropped |
| GoCompletion.EvalAtTrg | pylib/lang_go.py:142-180 | the controller is never started exactly when gocode is missing or its reply holds no entry list; member and explicit any triggers end with completions, calltip triggers with one calltip or IndexError |
| GoCompletion.CompletionPerEntry | pylib/lang_go.py:170-180 | member and explicit any completion list one completion per non-PANIC entry, in order |
| GoCompletion.ImplicitAnyCompletesNothing | pylib/lang_go.py:178-180 | an implicit any trigger completes nothing |
| GoCompletion.CalltipOfFirstEntry | pylib/lang_go.py:149-177 | a calltip shows "<name> <type>" of the first entry left, and raises IndexError when none is left |
| GoCompletion.GoLangIntel.constructor | pylib/lang_go.py:56-57 | the object records whether gocode is present and remembers no trigger type |
| GoCompletion.GoLangIntel.PrecedingTrgFromPos | pylib/lang_go.py:79-139 | the trigger returned is the chosen one, and the remembered type becomes its type, or stays when none is returned |
| GoAppInfo.LastSlashEnd | components/koGoAppInfo.py:46 | the last path component starts after the last '/' and holds no '/' |
| GoAppInfo.RStripSlashes | components/koGoAppInfo.py:46 | removing trailing slashes leaves a prefix not ending in '/', followed only by slashes |
| GoAppInfo.Dirname | components/koGoAppInfo.py:46 | the directory is a prefix of the path reaching at most to the last '/', with only slashes between its end and that '/'; it is empty exactly when the path has no '/', and ends in '/' only when it is all slashes and reaches the last '/' |
| GoAppInfo.DirnameUnique | components/koGoAppInfo.py:46 | those properties fix the directory: any string that has them is `Dirname` of the path |
| GoAppInfo.DirnameOfChild | components/koGoAppInfo.py:46 | the directory of "dir/name" is dir |
| GoAppInfo.GorootOfInstalledBinary | components/koGoAppInfo.py:46 | GOROOT of "<root>/bin/<name>" is root |
| GoAppInfo.GoEnv | components/koGoAppInfo.py:44-46 | GOROOT is the grandparent of the executable, and every other entry is unchanged |
| GoAppInfo.DottedLength | components/koGoAppInfo.py:49 | the greedy version run stays within the text |
| GoAppInfo.DottedLengthShape | components/koGoAppInfo.py:49 | what the greedy run takes is one to three digit runs joined by '.' |
| GoAppInfo.DottedLengthLongest | components/koGoAppInfo.py:49-52 | no longer prefix of digit runs exists |
| GoAppInfo.VersionStart | components/koGoAppInfo.py:49-50 | the version starts at a digit, after the "go version" header |
| GoAppInfo.MatchVersion | components/koGoAppInfo.py:49-52 | the output matches exactly when the header leads to a digit, and the group, read from that digit, is one to three dot-separated digit runs |
| GoAppInfo.VersionLineStart | components/koGoAppInfo.py:49-50 | on a version line the digits start after the second whitespace run |
| GoAppInfo.MatchVersionIff | components/koGoAppInfo.py:49-50 | the output is accepted exactly when it is "go version", whitespace, "go", optional whitespace and a digit |
| GoAppInfo.MatchVersionLongest | components/koGoAppInfo.py:49-52 | the version is the longest prefix of one to three dot-separated digit runs |
| GoAppInfo.MatchVersionAt | components/koGoAppInfo.py:50-52 | the version is the digit run read where the digits start |
| GoAppInfo.ThreeOfFourComponents | components/koGoAppInfo.py:49 | of "1.2.3.4" the greedy run takes "1.2.3" |
| GoAppInfo.FourComponentsTruncated | components/koGoAppInfo.py:49-52 | "go1.2.3.4" reads as "1.2.3" |
| GoAppInfo.VersionFromOutput | components/koGoAppInfo.py:49-55 | a version is returned exactly when the output is a version line, and it is one to three dot-separated digit runs; otherwise the unexpected-output error carries the executable, stdout and stderr |
| GoAppInfo.GetVersionForBinary | components/koGoAppInfo.py:39-55 | a missing executable raises file-not-found before anything runs; otherwise `go version` runs with GOROOT set, and gives the version or the unexpected-output error |

## Left out

- Running processes is not modelled. That covers the temp files, their
  removal, the working directory and `koprocessutils.getUserEnv`. Each
  program is a parameter instead:
  - gofmt is `runTool(command, env, text)`, giving its stdout and stderr,
    or a failure to start it;
  - `go build` is `runBuild(command)`, giving the exit status and the
    output. The environment passed to the process is not part of it;
  - `go version` is `runGo(argv, env)`, giving stdout and stderr;
  - gocode is `gocode(path, pos)`, giving the decoded reply.
- GoBuildLinter.GoBuildLinterService.LintWithText: a failure to start
  `go build` is not modelled. The source does not catch an exception out of
  `ProcessOpen`, but every `BuildRun` has an exit status and output.
- `lint` encodes the buffer before calling `lint_with_text`. Encodings are
  not modelled, so `LintWithText` takes the encoded text.
- JSON decoding of gocode's reply is not modelled. The reply is already
  decoded: not JSON, a list too short to hold entries, or the entry list.
- The Scintilla accessor, `AccessorCache` and the inherited
  `preceding_trg_from_pos` and `trg_from_pos` helpers are `Editor`
  parameters. The code that defines them is not part of this model.
- XPCOM registration, the interpolation service, logging, lexer setup and
  the host's result, trigger and controller objects are left out. They are
  host plumbing; results and triggers are plain records.
- `FindInstallationPaths` is left out: it calls a base-class method that is
  not part of this model. The minimum-version check is left out for the
  same reason.
- `content/pref/pref-golang.js`, `pylib/cile_go.py`,
  `components/koGo_UDL_Language.py` and `pylib/langinfo_go.py` are left
  out. They hold UI code, a stub scanner and static registration data.
- GoAppInfo.Dirname: only `posixpath.dirname` is modelled; Windows path
  rules (`ntpath`) are not.
- GoBuildLinter.BuildResult: requires that the file name holds no regex
  metacharacter other than '.'. A name with one would change the pattern,
  and that is not modelled; '.' is modelled as the wildcard it is.
- GoBuildLinter.GoBuildLinterService.LintWithText: carries the same
  restriction on the document's base name.
- The build linter reads only the standard output of `go build`, as the
  code does; its standard error is not modelled.
- GoCompletion.GoLangIntel.constructor: the code shown never sets
  `_last_trg_type` before its first read. The model starts it as no type.
- GoLanguagePrefs.WithGoFormatter: the host raises an exception when a
  preference has the wrong type. The model instead requires that the flag
  is a boolean and that the formatter list exists while the flag is unset.
- GoFmtLinter.GolangLinter.Observe: only the topic and the new location
  are inputs. Reading the preference service is not modelled.

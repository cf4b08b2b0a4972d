/**
 The lint record both Go linters hand to the editor. A linter may leave the
 position of a result unset; `span` is then `None`.
 */
module LintResults {
  import opened Optional

  datatype Severity = Error | Warning | Info

  datatype Span = Span(lineStart: int, lineEnd: int, columnStart: int, columnEnd: int)

  datatype LintResult = LintResult(description: string, severity: Severity, span: Option<Span>)
}

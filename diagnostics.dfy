/**
 * The VS Code values the linter builds: `vscode.DiagnosticSeverity`,
 * `vscode.Range` and `vscode.Diagnostic`, with the checks their
 * constructors make. A constructor that throws is modelled by `None`.
 */
module Diagnostics {
  import opened Wrappers

  /** The members of the `DiagnosticSeverity` enumeration. */
  datatype Severity = Error | Warning | Information | Hint

  /** The name of a severity, as the configuration setting spells it. */
  function SeverityName(v: Severity): string {
    match v
    case Error => "Error"
    case Warning => "Warning"
    case Information => "Information"
    case Hint => "Hint"
  }

  /** `vscode.DiagnosticSeverity[name]`: the severity of that name, and
      `undefined` (None) for any other configured name. */
  function SeverityNamed(name: string): (r: Option<Severity>)
    ensures r.Some? ==> SeverityName(r.value) == name
    ensures r.None? ==> forall v :: SeverityName(v) != name
  {
    if name == "Error" then Some(Error)
    else if name == "Warning" then Some(Warning)
    else if name == "Information" then Some(Information)
    else if name == "Hint" then Some(Hint)
    else None
  }

  /** Every severity is found again under its own name. */
  lemma SeverityNameRoundTrip(v: Severity)
    ensures SeverityNamed(SeverityName(v)) == Some(v)
  {
  }

  /** A range from a start position to an end position that is not before it. */
  datatype Range = Range(startLine: nat, startCharacter: nat, endLine: nat, endCharacter: nat)

  /** Position (l1, c1) is not after position (l2, c2). */
  predicate NotAfter(l1: int, c1: int, l2: int, c2: int) {
    l1 < l2 || (l1 == l2 && c1 <= c2)
  }

  /** `new vscode.Range(startLine, startCharacter, endLine, endCharacter)`:
      the `Position` constructor throws on a negative line or character;
      otherwise the range runs from the earlier of the two positions to the
      later one. */
  function NewRange(sl: int, sc: int, el: int, ec: int): (r: Option<Range>)
    ensures r.Some? <==> 0 <= sl && 0 <= sc && 0 <= el && 0 <= ec
    ensures r.Some? ==> NotAfter(r.value.startLine, r.value.startCharacter, r.value.endLine, r.value.endCharacter)
    ensures r.Some? ==> r.value == Range(sl, sc, el, ec) || r.value == Range(el, ec, sl, sc)
  {
    if sl < 0 || sc < 0 || el < 0 || ec < 0 then None
    else if NotAfter(sl, sc, el, ec) then Some(Range(sl, sc, el, ec))
    else Some(Range(el, ec, sl, sc))
  }

  /** A diagnostic as VS Code holds it once constructed. */
  datatype Diagnostic = Diagnostic(range: Range, message: string, severity: Severity)

  /** The severity parameter of the `Diagnostic` constructor: `undefined`
      takes its default, Error. */
  function SeverityOrDefault(severity: Option<Severity>): (r: Severity)
    ensures severity.None? ==> r == Error
    ensures severity.Some? ==> r == severity.value
  {
    if severity.Some? then severity.value else Error
  }

  /** `new vscode.Diagnostic(range, message, severity)`, where `range` is
      None when building it threw already. The constructor throws when the
      message is undefined or empty. */
  function NewDiagnostic(range: Option<Range>, message: Option<string>, severity: Option<Severity>): (r: Option<Diagnostic>)
    ensures r.Some? <==> range.Some? && message.Some? && message.value != []
    ensures r.Some? ==> r.value.range == range.value && r.value.message == message.value
                        && r.value.severity == SeverityOrDefault(severity)
  {
    if range.None? || message.None? || message.value == [] then None
    else Some(Diagnostic(range.value, message.value, SeverityOrDefault(severity)))
  }
}

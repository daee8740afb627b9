/**
 * What `lintDocument` makes of the linter's output (src/extension.ts:125-180)
 * and what each `scanLineFor...` helper adds for one line
 * (src/extension.ts:19-93), as functions of the output text and of the
 * `lastIndex` of the four global regular expressions. The class in module
 * Extension runs the same steps in place; these functions are its
 * specification.
 */
module Lint {
  import opened Wrappers
  import opened Text
  import opened Patterns
  import opened Shapes
  import opened Diagnostics

  // ---------------------------------------------------------------------
  // Text as JavaScript writes it into the log

  /** How a template literal writes an integer-valued number. */
  function IntText(n: int): (r: string)
    ensures n >= 0 ==> AllIn(r, Digit) && Decimal(r) == n
    ensures n < 0 ==> |r| >= 2 && r[0] == '-' && AllIn(r[1..], Digit) && Decimal(r[1..]) == -n
  {
    var a := if n >= 0 then n else -n;
    DecimalRoundTrip(a);
    if n >= 0 then DecimalDigits(n) else "-" + DecimalDigits(a)
  }

  /** How a template literal writes a capture that may be `undefined`. */
  function OptionalText(m: Option<string>): string {
    if m.Some? then m.value else "undefined"
  }

  // ---------------------------------------------------------------------
  // Groups of a match

  /** `m` is a match of `p` on `s`. */
  predicate Matched(p: Pattern, s: string, m: Match) {
    WellFormed(p, s, m.index, Found(m.end, m.groups))
  }

  /** `match[k]`, for a group that took part. */
  function GroupText(s: string, m: Match, k: nat): string
    requires k < |m.groups| && Spans(s, m.groups[k])
  {
    Captured(s, m.groups[k].value)
  }

  /** `parseInt(match[k])` for a `(\d+)` group. */
  function GroupNumber(s: string, m: Match, k: nat): nat
    requires k < |m.groups| && DigitGroup(s, m.groups[k])
  {
    DigitRunText(s, m.groups[k].value);
    Decimal(Captured(s, m.groups[k].value))
  }

  /** The value of the `(\d+)` group `g` of `s`. */
  function RunNumber(s: string, g: Group): nat
    requires DigitRun(s, g)
  {
    DigitRunText(s, g);
    Decimal(Captured(s, g))
  }

  /** `new vscode.Range(lineno, 0, lineno, line.length - 1)`, the range of
      every located diagnostic: columns 0 to `|line| - 1` of line `lineno`,
      where `line` is the linter's output line, not the source line. It
      cannot be built for a negative line number or an empty line. */
  function LineRange(lineno: int, line: string): (r: Option<Range>)
    ensures r.Some? <==> lineno >= 0 && |line| >= 1
    ensures r.Some? ==> r.value == Range(lineno, 0, lineno, |line| - 1)
  {
    NewRange(lineno, 0, lineno, |line| - 1)
  }

  /** What one line adds to the diagnostics: nothing, one diagnostic, or
      the exception a `vscode.Range` or `vscode.Diagnostic` constructor
      throws, which leaves `lintDocument` before the collection is set. */
  datatype Outcome = Nothing | Adds(diagnostic: Diagnostic) | Throws

  /** `diagArr.push(new vscode.Diagnostic(...))`: the push, or the exception. */
  function Pushed(d: Option<Diagnostic>): Outcome {
    if d.Some? then Adds(d.value) else Throws
  }

  /** The diagnostics an outcome adds to the array. */
  function Added(o: Outcome): seq<Diagnostic> {
    if o.Adds? then [o.diagnostic] else []
  }

  /** The severity every located diagnostic gets from the configured name. */
  function Configured(level: string): Severity {
    SeverityOrDefault(SeverityNamed(level))
  }

  // ---------------------------------------------------------------------
  // scanLineForGeneralError (src/extension.ts:19-39)

  /** `match[3]`, undefined when `(.+)?` took nothing. */
  function GeneralMessage(line: string, m: Match): Option<string>
    requires Matched(GeneralError, line, m)
  {
    if m.groups[3].Some? then Some(GroupText(line, m, 3)) else None
  }

  /** The diagnostic of a general error, on the line before the reported
      one, with the message group as its message. It cannot be built when the
      reported line is 0 or the message is undefined. */
  function GeneralDiagnostic(line: string, m: Match, level: string): (r: Option<Diagnostic>)
    requires Matched(GeneralError, line, m)
    ensures r.Some? <==> GroupNumber(line, m, 2) >= 1 && m.groups[3].Some?
    ensures r.Some? ==> var n := GroupNumber(line, m, 2) - 1;
                        r.value == Diagnostic(Range(n, 0, n, |line| - 1), GroupText(line, m, 3), Configured(level))
  {
    var lineno := GroupNumber(line, m, 2) - 1;
    NewDiagnostic(LineRange(lineno, line), GeneralMessage(line, m), SeverityNamed(level))
  }

  function GeneralLog(line: string, m: Match): string
    requires Matched(GeneralError, line, m)
  {
    "Error: " + GroupText(line, m, 1) + ":" + IntText(GroupNumber(line, m, 2) - 1) + ": "
    + OptionalText(GeneralMessage(line, m)) + "\n"
  }

  // ---------------------------------------------------------------------
  // scanLineForTokenError (src/extension.ts:42-66)
  // scanLineForUnexpectedTokenError (src/extension.ts:69-93)

  /** `tokenFile`: `fileMatch[1]` when the file name pattern matched, which
      is a name ending in `.gd`, and empty otherwise. */
  function FileName(line: string, f: Option<Match>): (r: string)
    requires f.Some? ==> Matched(TokenFile, line, f.value)
    ensures f.None? ==> r == ""
    ensures f.Some? ==> |r| > 3 && HasAt(r, |r| - 3, ".gd")
  {
    if f.Some? then
      GroupText(line, f.value, 1)
    else ""
  }

  /** The diagnostic of a token error: on the reported line itself, with the
      description as its message; the column is only logged. It can always be
      built. */
  function TokenDiagnostic(line: string, m: Match, level: string): (r: Option<Diagnostic>)
    requires Matched(TokenError, line, m)
    ensures r.Some?
    ensures var n := GroupNumber(line, m, 2);
            r.value == Diagnostic(Range(n, 0, n, |line| - 1), GroupText(line, m, 1), Configured(level))
  {
    NewDiagnostic(LineRange(GroupNumber(line, m, 2), line), Some(GroupText(line, m, 1)), SeverityNamed(level))
  }

  function TokenLog(file: string, line: string, m: Match): string
    requires Matched(TokenError, line, m)
  {
    "Token: " + file + ":" + IntText(GroupNumber(line, m, 2)) + ":" + IntText(GroupNumber(line, m, 3)) + ": "
    + GroupText(line, m, 1) + "\n"
  }

  /** The diagnostic of an unexpected token: on the reported line, with the
      fourth group as its message. It can always be built. */
  function UnexpectedDiagnostic(line: string, m: Match, level: string): (r: Option<Diagnostic>)
    requires Matched(UnexpectedToken, line, m)
    ensures r.Some?
    ensures var n := GroupNumber(line, m, 2);
            r.value == Diagnostic(Range(n, 0, n, |line| - 1), GroupText(line, m, 4), Configured(level))
  {
    NewDiagnostic(LineRange(GroupNumber(line, m, 2), line), Some(GroupText(line, m, 4)), SeverityNamed(level))
  }

  function UnexpectedLog(file: string, line: string, m: Match): string
    requires Matched(UnexpectedToken, line, m)
  {
    "Token: " + file + ":" + IntText(GroupNumber(line, m, 2)) + ":" + IntText(GroupNumber(line, m, 3)) + ": "
    + GroupText(line, m, 4) + "\n"
  }

  /** The general log entry reports what is pushed: the diagnostic's line
      (one less than the reported line) and its message, after the file
      group. An undefined message is written as `undefined`. */
  lemma GeneralLogAgrees(line: string, m: Match, level: string)
    requires Matched(GeneralError, line, m)
    ensures var d := GeneralDiagnostic(line, m, level);
            d.Some? ==> GeneralLog(line, m)
                        == "Error: " + GroupText(line, m, 1) + ":" + IntText(d.value.range.startLine) + ": " + d.value.message + "\n"
    ensures m.groups[3].None? ==>
              GeneralLog(line, m) == "Error: " + GroupText(line, m, 1) + ":" + IntText(GroupNumber(line, m, 2) - 1) + ": undefined\n"
  {
  }

  /** The token log entry reports the diagnostic's line and message, and
      the column the diagnostic leaves out, after the file name. */
  lemma TokenLogAgrees(file: string, line: string, m: Match, level: string)
    requires Matched(TokenError, line, m)
    ensures var d := TokenDiagnostic(line, m, level).value;
            TokenLog(file, line, m)
            == "Token: " + file + ":" + IntText(d.range.startLine) + ":" + IntText(GroupNumber(line, m, 3)) + ": " + d.message + "\n"
  {
  }

  /** The same for an unexpected token. */
  lemma UnexpectedLogAgrees(file: string, line: string, m: Match, level: string)
    requires Matched(UnexpectedToken, line, m)
    ensures var d := UnexpectedDiagnostic(line, m, level).value;
            UnexpectedLog(file, line, m)
            == "Token: " + file + ":" + IntText(d.range.startLine) + ":" + IntText(GroupNumber(line, m, 3)) + ": " + d.message + "\n"
  {
  }

  // ---------------------------------------------------------------------
  // The fallback (src/extension.ts:167-174)

  /** `line.includes('Error:') || line.includes('error:')`: the two exact
      spellings, so a marked line has at least their six characters. */
  predicate HasErrorMarker(line: string)
    ensures HasErrorMarker(line) ==> |line| >= 6
  {
    Contains(line, "Error:") || Contains(line, "error:")
  }

  /** The unlocated diagnostic for a line none of the patterns recognised:
      only when it carries an error marker, with the whole line as message and
      severity Error. A line with a marker is never empty, so the constructor
      never throws here. */
  function Fallback(line: string): (r: Outcome)
    ensures !r.Throws?
  {
    if HasErrorMarker(line) then Pushed(NewDiagnostic(NewRange(0, 0, 0, 10), Some(line), Some(Error))) else Nothing
  }

  // ---------------------------------------------------------------------
  // One line

  /** The `lastIndex` of each of the four global regular expressions. */
  datatype Matchers = Matchers(general: nat, token: nat, unexpected: nat, file: nat)

  /** What one line does: its outcome, the log text, and the new
      `lastIndex` of the regular expressions. */
  datatype LineResult = LineResult(outcome: Outcome, log: seq<string>, matchers: Matchers)

  /** The three helpers tried in order, each only when the ones before it
      returned false, then the fallback. The token helpers run the file name
      pattern first; the second run starts where the first one left it. A
      helper that matched logs its entry before it builds the diagnostic, so
      the entry is written even when building it throws. */
  function ScanLine(line: string, st: Matchers, level: string): (r: LineResult)
    ensures |r.log| <= 1 && (r.log != [] ==> !r.outcome.Nothing?)
    ensures r.outcome.Throws? ==> r.log != []
  {
    var (g, gi) := Exec(GeneralError, line, st.general);
    if g.Some? then
      LineResult(Pushed(GeneralDiagnostic(line, g.value, level)), [GeneralLog(line, g.value)], st.(general := gi))
    else
      var (f1, fi1) := Exec(TokenFile, line, st.file);
      var (t, ti) := Exec(TokenError, line, st.token);
      if t.Some? then
        LineResult(Pushed(TokenDiagnostic(line, t.value, level)), [TokenLog(FileName(line, f1), line, t.value)],
                   Matchers(gi, ti, st.unexpected, fi1))
      else
        var (f2, fi2) := Exec(TokenFile, line, fi1);
        var (u, ui) := Exec(UnexpectedToken, line, st.unexpected);
        if u.Some? then
          LineResult(Pushed(UnexpectedDiagnostic(line, u.value, level)), [UnexpectedLog(FileName(line, f2), line, u.value)],
                     Matchers(gi, ti, ui, fi2))
        else
          LineResult(Fallback(line), [], Matchers(gi, ti, ui, fi2))
  }

  /** The stateless reading of a line: every pattern searched from the start. */
  function Classify(line: string, level: string): Outcome {
    match Search(GeneralError, line, 0)
    case Some(m) => Pushed(GeneralDiagnostic(line, m, level))
    case None =>
      match Search(TokenError, line, 0)
      case Some(m) => Pushed(TokenDiagnostic(line, m, level))
      case None =>
        match Search(UnexpectedToken, line, 0)
        case Some(m) => Pushed(UnexpectedDiagnostic(line, m, level))
        case None => Fallback(line)
  }

  const Fresh := Matchers(0, 0, 0, 0)

  /** With every `lastIndex` at 0, a line gets exactly its stateless reading. */
  lemma ScanLineFresh(line: string, level: string)
    ensures ScanLine(line, Fresh, level).outcome == Classify(line, level)
  {
  }

  /** The file name pattern only feeds the log: where its `lastIndex` stands
      changes neither the outcome nor the other three regular expressions. */
  lemma FileNameLogOnly(line: string, st: Matchers, a: nat, b: nat, level: string)
    ensures ScanLine(line, st.(file := a), level).outcome == ScanLine(line, st.(file := b), level).outcome
    ensures var ra := ScanLine(line, st.(file := a), level).matchers;
            var rb := ScanLine(line, st.(file := b), level).matchers;
            ra.general == rb.general && ra.token == rb.token && ra.unexpected == rb.unexpected
  {
  }

  /** A line on which none of the three patterns matches, from the state the
      regular expressions are in, gets the fallback and no log entry: an
      unlocated diagnostic, range (0,0)-(0,10), carrying the whole line with
      severity Error whatever the configured level, exactly when the line
      holds an error marker. */
  lemma UnmatchedLine(line: string, st: Matchers, level: string)
    requires Exec(GeneralError, line, st.general).0.None?
    requires Exec(TokenError, line, st.token).0.None?
    requires Exec(UnexpectedToken, line, st.unexpected).0.None?
    ensures var r := ScanLine(line, st, level);
            && r.log == []
            && (r.outcome.Adds? <==> HasErrorMarker(line))
            && (HasErrorMarker(line) ==> r.outcome == Adds(Diagnostic(Range(0, 0, 0, 10), line, Error)))
            && (!HasErrorMarker(line) ==> r.outcome == Nothing)
  {
    var r := ScanLine(line, st, level);
    assert r.outcome == Fallback(line);
  }

  // ---------------------------------------------------------------------
  // What each kind of line yields

  /** A general line `<word>.gd:<N>: Error: <msg>`, standing alone or after
      the directory part of a path (a prefix that ends in a character other
      than a word character and holds no `.gd:`), is found where the base
      name starts. It yields one diagnostic on line N - 1 spanning the whole
      output line, with `msg` as its message and the configured severity; the
      log names the base name with `.gd`. When N is 0 or the message is empty
      the constructors throw, after the entry was logged. */
  lemma GeneralLineDiagnostic(line: string, i: nat, w: nat, e: nat, st: Matchers, level: string)
    requires GeneralShape(line, i, w, e) && (i == 0 || !IsWord(line[i - 1])) && !Contains(line[..i], ".gd:")
    requires st.general == 0
    ensures DigitRun(line, Group(w + 4, e))
    ensures var n := RunNumber(line, Group(w + 4, e));
            var msg := Captured(line, Group(e + 9, |line|));
            var r := ScanLine(line, st, level);
            && r.outcome == (if n >= 1 && msg != [] then Adds(Diagnostic(Range(n - 1, 0, n - 1, |line| - 1), msg, Configured(level)))
                             else Throws)
            && r.log == ["Error: " + Captured(line, Group(i, w + 3)) + ":" + IntText(n - 1) + ": " + OptionalText(OptionalGroup(msg)) + "\n"]
  {
    GeneralLineFound(line, i, w, e);
    var m := GeneralLineMatch(line, i, w, e);
    GeneralLineOutcome(line, i, w, e, m, level);
  }

  /** Where the search for GeneralError in such a line stops. */
  function GeneralLineMatch(line: string, i: nat, w: nat, e: nat): Match
    requires e + 9 <= |line|
  {
    Match(i, |line|, [Some(Group(i, |line|)), Some(Group(i, w + 3)), Some(Group(w + 4, e)),
                      if e + 9 == |line| then None else Some(Group(e + 9, |line|))])
  }

  /** The search from the start skips the prefix and matches the whole rest of the line. */
  lemma GeneralLineFound(line: string, i: nat, w: nat, e: nat)
    requires GeneralShape(line, i, w, e) && (i == 0 || !IsWord(line[i - 1])) && !Contains(line[..i], ".gd:")
    ensures Search(GeneralError, line, 0) == Some(GeneralLineMatch(line, i, w, e))
  {
    GeneralAtShape(line, i, w, e);
    GeneralNoMatchBefore(line, i, w, e);
    GeneralSearchFinds(line, 0, i);
  }

  /** What the general helper makes of that match. */
  lemma GeneralLineOutcome(line: string, i: nat, w: nat, e: nat, m: Match, level: string)
    requires e + 9 <= |line| && m == GeneralLineMatch(line, i, w, e) && Matched(GeneralError, line, m)
    ensures DigitRun(line, Group(w + 4, e))
    ensures var n := RunNumber(line, Group(w + 4, e));
            var msg := Captured(line, Group(e + 9, |line|));
            && Pushed(GeneralDiagnostic(line, m, level))
               == (if n >= 1 && msg != [] then Adds(Diagnostic(Range(n - 1, 0, n - 1, |line| - 1), msg, Configured(level)))
                   else Throws)
            && GeneralLog(line, m)
               == "Error: " + Captured(line, Group(i, w + 3)) + ":" + IntText(n - 1) + ": " + OptionalText(OptionalGroup(msg)) + "\n"
  {
    var msg := Captured(line, Group(e + 9, |line|));
    assert GeneralMessage(line, m) == OptionalGroup(msg);
  }

  /** A token line `<desc> at line <L>, column <C>.` without `Error:` yields
      one diagnostic on line L itself, starting at column 0, with the
      description as its message; C plays no part in it. */
  lemma TokenLineDiagnostic(line: string, p: nat, le: nat, ce: nat, st: Matchers, level: string)
    requires TokenShape(line, p, le, ce) && !Contains(line, "Error:") && st.token == 0
    ensures DigitRun(line, Group(p + 9, le))
    ensures var n := RunNumber(line, Group(p + 9, le));
            ScanLine(line, st, level).outcome == Adds(Diagnostic(Range(n, 0, n, |line| - 1), Captured(line, Group(0, p)), Configured(level)))
  {
    if st.general <= |line| && Search(GeneralError, line, st.general).Some? {
      SearchNeedsLiteral(GeneralError, line, st.general);
    }
    TokenAtShape(line, p, le, ce);
  }

  /** An unexpected-token line `Token<X>:<L>:<C>: Unexpected token<Y>` that
      is not a general or token line yields one diagnostic on line L with
      Y as its message. */
  lemma UnexpectedLineDiagnostic(line: string, p: nat, le: nat, ce: nat, st: Matchers, level: string)
    requires UnexpectedShape(line, p, le, ce) && !Contains(line, "Error:") && !Contains(line, " at line ")
    requires st.unexpected == 0
    ensures DigitRun(line, Group(p + 1, le))
    ensures var n := RunNumber(line, Group(p + 1, le));
            ScanLine(line, st, level).outcome
            == Adds(Diagnostic(Range(n, 0, n, |line| - 1), Captured(line, Group(ce + 18, |line|)), Configured(level)))
  {
    if st.general <= |line| && Search(GeneralError, line, st.general).Some? {
      SearchNeedsLiteral(GeneralError, line, st.general);
    }
    if st.token <= |line| && Search(TokenError, line, st.token).Some? {
      SearchNeedsLiteral(TokenError, line, st.token);
    }
    UnexpectedAtShape(line, p, le, ce);
  }

  /** A line none of the three patterns can match (it has no `.gd:`, no
      ` at line ` and no `: Unexpected token`) gets the fallback and nothing
      else, whatever the state of the regular expressions. */
  lemma OtherLineDiagnostic(line: string, st: Matchers, level: string)
    requires !Contains(line, ".gd:") && !Contains(line, " at line ") && !Contains(line, ": Unexpected token")
    ensures ScanLine(line, st, level).outcome == Fallback(line)
    ensures ScanLine(line, st, level).log == []
  {
    if st.general <= |line| && Search(GeneralError, line, st.general).Some? {
      SearchNeedsLiteral(GeneralError, line, st.general);
    }
    if st.token <= |line| && Search(TokenError, line, st.token).Some? {
      SearchNeedsLiteral(TokenError, line, st.token);
    }
    if st.unexpected <= |line| && Search(UnexpectedToken, line, st.unexpected).Some? {
      SearchNeedsLiteral(UnexpectedToken, line, st.unexpected);
    }
  }

  // ---------------------------------------------------------------------
  // The line pipeline (src/extension.ts:151-176)

  /** What the linter process wrote: each stream is null when it was not captured. */
  datatype Output = Output(stdout: Option<string>, stderr: Option<string>)

  /** `if (stream) lines.push(...stream.toString().split('\n'))`: nothing
      for a stream that was not captured, otherwise its newline-free pieces,
      which join back to it. */
  function Pieces(stream: Option<string>): (r: seq<string>)
    ensures stream.None? ==> r == []
    ensures stream.Some? ==> |r| >= 1 && Join(r) == stream.value && forall k :: 0 <= k < |r| ==> '\n' !in r[k]
  {
    if stream.Some? then Split(stream.value) else []
  }

  /** `.map(line => line.trim())`. */
  function TrimAll(lines: seq<string>): (r: seq<string>)
    ensures |r| == |lines| && forall k :: 0 <= k < |r| ==> r[k] == Trim(lines[k])
  {
    if lines == [] then [] else [Trim(lines[0])] + TrimAll(lines[1..])
  }

  /** `.filter(line => line.length > 0)`: no empty line is kept, and every
      non-empty line is kept as often as it occurs. */
  function NonEmpty(lines: seq<string>): (r: seq<string>)
    ensures |r| <= |lines|
    ensures forall k :: 0 <= k < |r| ==> r[k] != []
    ensures forall x :: x != [] ==> multiset(r)[x] == multiset(lines)[x]
  {
    if lines == [] then []
    else
      assert lines == [lines[0]] + lines[1..];
      (if lines[0] == [] then [] else [lines[0]]) + NonEmpty(lines[1..])
  }

  /** The lines the scanner sees: stdout's before stderr's, each trimmed,
      empty ones dropped. */
  function PrepareLines(out: Output): (r: seq<string>)
    ensures forall k :: 0 <= k < |r| ==> r[k] != [] && IsTrimmed(r[k])
  {
    var trimmed := TrimAll(Pieces(out.stdout) + Pieces(out.stderr));
    var r := NonEmpty(trimmed);
    assert forall k :: 0 <= k < |r| ==> multiset(r)[r[k]] > 0;
    r
  }

  /** Which regular expressions `forEach` resets before each line: the
      source resets all but TokenError; the corrected pipeline resets all four. */
  function Reset(st: Matchers, resetsToken: bool): (r: Matchers)
    ensures r.general == 0 && r.unexpected == 0 && r.file == 0
    ensures r.token == if resetsToken then 0 else st.token
  {
    Matchers(0, if resetsToken then 0 else st.token, 0, 0)
  }

  /** What a run over the lines collects: the diagnostics, the log, the
      state of the regular expressions, and whether a constructor threw,
      which ends the run at that line. */
  datatype Run = Run(diagnostics: seq<Diagnostic>, log: seq<string>, matchers: Matchers, thrown: bool)

  /** The `forEach` over the prepared lines from regular expression state
      `st`: each line, after the reset, adds what `ScanLine` gives it, until
      a line throws. At most one diagnostic and one log entry per line. */
  function ScanLines(lines: seq<string>, st: Matchers, level: string, resetsToken: bool): (r: Run)
    ensures |r.diagnostics| <= |lines| && |r.log| <= |lines|
    decreases |lines|
  {
    if lines == [] then Run([], [], st, false)
    else
      var before := ScanLines(lines[..|lines| - 1], st, level, resetsToken);
      if before.thrown then before else Continue(before, lines[|lines| - 1], level, resetsToken)
  }

  /** One more round after rounds that did not throw: the reset, then what
      `ScanLine` gives the line. */
  function Continue(before: Run, line: string, level: string, resetsToken: bool): Run {
    var last := ScanLine(line, Reset(before.matchers, resetsToken), level);
    Run(before.diagnostics + Added(last.outcome), before.log + last.log, last.matchers, last.outcome.Throws?)
  }

  /** A run over one more line extends a run over the lines before it that
      did not throw by what that line does from the state they left. */
  lemma ScanLinesPrefix(lines: seq<string>, i: nat, st: Matchers, level: string, resetsToken: bool)
    requires i < |lines| && !ScanLines(lines[..i], st, level, resetsToken).thrown
    ensures ScanLines(lines[..i + 1], st, level, resetsToken)
            == Continue(ScanLines(lines[..i], st, level, resetsToken), lines[i], level, resetsToken)
  {
    assert lines[..i + 1][..i] == lines[..i];
  }

  /** Once a line has thrown, the lines after it change nothing: the whole
      run is the run up to that line. */
  lemma {:induction false} ScanLinesThrown(lines: seq<string>, i: nat, st: Matchers, level: string, resetsToken: bool)
    requires i <= |lines| && ScanLines(lines[..i], st, level, resetsToken).thrown
    ensures ScanLines(lines, st, level, resetsToken) == ScanLines(lines[..i], st, level, resetsToken)
    decreases |lines|
  {
    if i == |lines| {
      assert lines[..i] == lines;
    } else {
      var init := lines[..|lines| - 1];
      assert init[..i] == lines[..i];
      ScanLinesThrown(init, i, st, level, resetsToken);
    }
  }

  /** A run stopped at the end of the lines or at a line that threw is the
      run over all of them. */
  lemma ScanLinesStopped(lines: seq<string>, i: nat, st: Matchers, level: string, resetsToken: bool)
    requires i <= |lines| && (i == |lines| || ScanLines(lines[..i], st, level, resetsToken).thrown)
    ensures ScanLines(lines, st, level, resetsToken) == ScanLines(lines[..i], st, level, resetsToken)
  {
    if i == |lines| {
      assert lines[..i] == lines;
    } else {
      ScanLinesThrown(lines, i, st, level, resetsToken);
    }
  }

  /** Each line's own stateless reading, in line order, up to the first
      line whose diagnostic cannot be built. */
  datatype Reading = Reading(diagnostics: seq<Diagnostic>, thrown: bool)

  /** Each line's stateless reading, line by line. */
  function Outcomes(lines: seq<string>, level: string): (r: seq<Outcome>)
    ensures |r| == |lines| && forall k :: 0 <= k < |r| ==> r[k] == Classify(lines[k], level)
  {
    seq(|lines|, k requires 0 <= k < |lines| => Classify(lines[k], level))
  }

  /** The outcomes collected in order, up to the first that throws. */
  function Readings(os: seq<Outcome>): Reading
    decreases |os|
  {
    if os == [] then Reading([], false)
    else
      var before := Readings(os[..|os| - 1]);
      if before.thrown then before
      else Reading(before.diagnostics + Added(os[|os| - 1]), os[|os| - 1].Throws?)
  }

  /** The reference reading of the lines. */
  function PerLine(lines: seq<string>, level: string): Reading {
    Readings(Outcomes(lines, level))
  }

  /** Collecting stops with an exception exactly when one of the outcomes throws. */
  lemma {:induction false} ReadingsThrows(os: seq<Outcome>)
    ensures Readings(os).thrown <==> exists k :: 0 <= k < |os| && os[k].Throws?
    decreases |os|
  {
    if os != [] {
      var init := os[..|os| - 1];
      ReadingsThrows(init);
      if Readings(init).thrown {
        var k :| 0 <= k < |init| && init[k].Throws?;
        assert os[k] == init[k];
      } else {
        forall k | 0 <= k < |init| ensures !os[k].Throws? {
          assert os[k] == init[k];
        }
      }
    }
  }

  /** The reference reading throws exactly when one of the lines, read on
      its own, cannot get its diagnostic built. */
  lemma PerLineThrows(lines: seq<string>, level: string)
    ensures PerLine(lines, level).thrown <==> exists k :: 0 <= k < |lines| && Classify(lines[k], level).Throws?
  {
    var os := Outcomes(lines, level);
    ReadingsThrows(os);
    assert forall k :: 0 <= k < |lines| ==> os[k] == Classify(lines[k], level);
  }

  /** With every regular expression reset before each line, the run is
      exactly each line's own reading, in line order, up to the first line
      that throws, whatever state the run starts from. */
  lemma {:induction false} CorrectedIsPerLine(lines: seq<string>, st: Matchers, level: string)
    ensures var r := ScanLines(lines, st, level, true);
            Reading(r.diagnostics, r.thrown) == PerLine(lines, level)
    decreases |lines|
  {
    if lines != [] {
      var init := lines[..|lines| - 1];
      CorrectedIsPerLine(init, st, level);
      PerLineStep(lines, level);
      var before := ScanLines(init, st, level, true);
      if !before.thrown {
        ContinueFresh(before, lines[|lines| - 1], level);
      }
    }
  }

  /** The reference reading of one more line. */
  lemma PerLineStep(lines: seq<string>, level: string)
    requires lines != []
    ensures var before := PerLine(lines[..|lines| - 1], level);
            var o := Classify(lines[|lines| - 1], level);
            PerLine(lines, level) == if before.thrown then before else Reading(before.diagnostics + Added(o), o.Throws?)
  {
    assert Outcomes(lines, level)[..|lines| - 1] == Outcomes(lines[..|lines| - 1], level);
  }

  /** With every regular expression reset, one more round adds the line's
      stateless reading. */
  lemma ContinueFresh(before: Run, line: string, level: string)
    ensures var c := Continue(before, line, level, true);
            c.diagnostics == before.diagnostics + Added(Classify(line, level)) && c.thrown == Classify(line, level).Throws?
  {
    ScanLineFresh(line, level);
  }

  /** Linting the same output twice with the corrected pipeline gives the
      same diagnostics both times: the state the first run leaves behind does
      not matter. */
  lemma CorrectedRepeatable(lines: seq<string>, st1: Matchers, st2: Matchers, level: string)
    ensures ScanLines(lines, st1, level, true).diagnostics == ScanLines(lines, st2, level, true).diagnostics
    ensures ScanLines(lines, st1, level, true).thrown == ScanLines(lines, st2, level, true).thrown
  {
    CorrectedIsPerLine(lines, st1, level);
    CorrectedIsPerLine(lines, st2, level);
  }

  /** Lines from which no pattern can produce anything give no diagnostic at
      all, in either pipeline, and nothing throws: clean linter output yields
      an empty result. */
  lemma {:induction false} QuietLines(lines: seq<string>, st: Matchers, level: string, resetsToken: bool)
    requires forall k :: 0 <= k < |lines| ==> Quiet(lines[k])
    ensures ScanLines(lines, st, level, resetsToken).diagnostics == []
    ensures !ScanLines(lines, st, level, resetsToken).thrown
    decreases |lines|
  {
    if lines != [] {
      QuietLines(lines[..|lines| - 1], st, level, resetsToken);
      var before := ScanLines(lines[..|lines| - 1], st, level, resetsToken);
      OtherLineDiagnostic(lines[|lines| - 1], Reset(before.matchers, resetsToken), level);
    }
  }

  /** A line that matches no pattern and carries no error marker. */
  predicate Quiet(line: string) {
    !Contains(line, ".gd:") && !Contains(line, " at line ") && !Contains(line, ": Unexpected token") && !HasErrorMarker(line)
  }

  /** Splitting, trimming and filtering give back the lines of both streams,
      stdout's first, when each was written as its lines joined by newlines
      (and no line is empty, padded or holds a newline). */
  lemma PrepareJoined(out: seq<string>, err: seq<string>)
    requires forall k :: 0 <= k < |out| ==> out[k] != [] && IsTrimmed(out[k]) && '\n' !in out[k]
    requires forall k :: 0 <= k < |err| ==> err[k] != [] && IsTrimmed(err[k]) && '\n' !in err[k]
    ensures PrepareLines(Output(Some(Join(out)), Some(Join(err)))) == out + err
  {
    PiecesJoined(out);
    PiecesJoined(err);
    TrimNonEmptyAppend(Pieces(Some(Join(out))), Pieces(Some(Join(err))));
  }

  /** One stream written as its lines joined by newlines comes back as those
      lines, or as the one empty piece when there were none. */
  lemma PiecesJoined(lines: seq<string>)
    requires forall k :: 0 <= k < |lines| ==> lines[k] != [] && IsTrimmed(lines[k]) && '\n' !in lines[k]
    ensures NonEmpty(TrimAll(Pieces(Some(Join(lines))))) == lines
  {
    if lines == [] {
      assert Pieces(Some(Join(lines))) == Split("") == [""];
      assert Trim("") == "" by { TrimTrimmed(""); }
    } else {
      SplitJoin(lines);
      KeptAsTheyAre(lines);
    }
  }

  /** Trimming and filtering leave non-empty trimmed lines alone. */
  lemma {:induction false} KeptAsTheyAre(lines: seq<string>)
    requires forall k :: 0 <= k < |lines| ==> lines[k] != [] && IsTrimmed(lines[k])
    ensures NonEmpty(TrimAll(lines)) == lines
  {
    if lines != [] {
      TrimTrimmed(lines[0]);
      KeptAsTheyAre(lines[1..]);
      assert TrimAll(lines)[1..] == TrimAll(lines[1..]);
    }
  }

  /** Trimming and filtering work line by line, so the two streams can be
      prepared apart. */
  lemma TrimNonEmptyAppend(a: seq<string>, b: seq<string>)
    ensures NonEmpty(TrimAll(a + b)) == NonEmpty(TrimAll(a)) + NonEmpty(TrimAll(b))
  {
    TrimAllAppend(a, b);
    NonEmptyAppend(TrimAll(a), TrimAll(b));
  }

  lemma {:induction false} TrimAllAppend(a: seq<string>, b: seq<string>)
    ensures TrimAll(a + b) == TrimAll(a) + TrimAll(b)
    decreases |a|
  {
    if a != [] {
      var x, rest := Trim(a[0]), a[1..];
      assert (a + b)[1..] == rest + b && (a + b)[0] == a[0];
      assert TrimAll(a + b) == [x] + TrimAll(rest + b);
      TrimAllAppend(rest, b);
      AppendAssoc([x], TrimAll(rest), TrimAll(b));
    } else {
      assert a + b == b;
    }
  }

  /** Concatenating lines is associative. */
  lemma AppendAssoc(a: seq<string>, b: seq<string>, c: seq<string>)
    ensures a + (b + c) == (a + b) + c
  {
  }

  /** The filter keeps the order of the lines: filtering two pieces one
      after the other is filtering them together. */
  lemma {:induction false} NonEmptyAppend(a: seq<string>, b: seq<string>)
    ensures NonEmpty(a + b) == NonEmpty(a) + NonEmpty(b)
    decreases |a|
  {
    if a != [] {
      assert (a + b)[1..] == a[1..] + b;
      NonEmptyAppend(a[1..], b);
    } else {
      assert a + b == b;
    }
  }

  // ---------------------------------------------------------------------
  // The TokenError regular expression is never reset

  /** As written, TokenError keeps the `lastIndex` its last match left, so
      the same token line twice in a row yields only one diagnostic, and a
      document whose output is one token line gets nothing when it is linted
      a second time. */
  lemma RepeatedTokenLineAsWritten(line: string, p: nat, le: nat, ce: nat, level: string)
    requires TokenShape(line, p, le, ce) && !HasErrorMarker(line) && !Contains(line, ": Unexpected token")
    ensures DigitRun(line, Group(p + 9, le))
    ensures var n := RunNumber(line, Group(p + 9, le));
            var d := Diagnostic(Range(n, 0, n, |line| - 1), Captured(line, Group(0, p)), Configured(level));
            ScanLines([line, line], Fresh, level, false).diagnostics == [d]
    ensures ScanLines([line], ScanLines([line], Fresh, level, false).matchers, level, false).diagnostics == []
  {
    TokenLineFirst(line, p, le, ce, level);
    var first := ScanLine(line, Fresh, level);
    var st := Reset(first.matchers, false);
    SecondTokenLineMissed(line, st, level);
    ScanLinesOne(line, Fresh, level, false);
    ScanLinesTwo(line, line, Fresh, level, false);
  }

  /** A token line met with every `lastIndex` at 0 yields its diagnostic and
      leaves TokenError's `lastIndex` at the end of the line. */
  lemma TokenLineFirst(line: string, p: nat, le: nat, ce: nat, level: string)
    requires TokenShape(line, p, le, ce) && !Contains(line, "Error:")
    ensures DigitRun(line, Group(p + 9, le))
    ensures var n := RunNumber(line, Group(p + 9, le));
            var r := ScanLine(line, Fresh, level);
            && r.outcome == Adds(Diagnostic(Range(n, 0, n, |line| - 1), Captured(line, Group(0, p)), Configured(level)))
            && r.matchers.token == |line| && r.matchers.general == 0 && r.matchers.unexpected == 0
  {
    TokenLineDiagnostic(line, p, le, ce, Fresh, level);
    TokenAtShape(line, p, le, ce);
    if Search(GeneralError, line, 0).Some? {
      SearchNeedsLiteral(GeneralError, line, 0);
    }
  }

  /** The run over one line. */
  lemma ScanLinesOne(a: string, st: Matchers, level: string, resetsToken: bool)
    ensures var r := ScanLine(a, Reset(st, resetsToken), level);
            ScanLines([a], st, level, resetsToken) == Run(Added(r.outcome), r.log, r.matchers, r.outcome.Throws?)
  {
    assert [a][..0] == [];
  }

  /** The run over two lines, when the first does not throw. */
  lemma ScanLinesTwo(a: string, b: string, st: Matchers, level: string, resetsToken: bool)
    ensures var first := ScanLines([a], st, level, resetsToken);
            var r := ScanLine(b, Reset(first.matchers, resetsToken), level);
            !first.thrown ==> ScanLines([a, b], st, level, resetsToken).diagnostics == first.diagnostics + Added(r.outcome)
  {
    assert [a, b][..1] == [a];
  }

  /** A token line met with TokenError's `lastIndex` at its end gets nothing. */
  lemma SecondTokenLineMissed(line: string, st: Matchers, level: string)
    requires st.token == |line| && st.general == 0 && st.unexpected == 0
    requires !HasErrorMarker(line) && !Contains(line, ": Unexpected token")
    ensures ScanLine(line, st, level).outcome == Nothing
  {
    if Search(GeneralError, line, 0).Some? {
      SearchNeedsLiteral(GeneralError, line, 0);
    }
    if Search(UnexpectedToken, line, 0).Some? {
      SearchNeedsLiteral(UnexpectedToken, line, 0);
    }
    assert Search(TokenError, line, |line|).None?;
  }

  /** The corrected pipeline resets TokenError too: every occurrence of the
      token line yields its diagnostic. */
  lemma RepeatedTokenLineCorrected(line: string, p: nat, le: nat, ce: nat, level: string)
    requires TokenShape(line, p, le, ce) && !HasErrorMarker(line)
    ensures DigitRun(line, Group(p + 9, le))
    ensures var n := RunNumber(line, Group(p + 9, le));
            var d := Diagnostic(Range(n, 0, n, |line| - 1), Captured(line, Group(0, p)), Configured(level));
            && ScanLines([line, line], Fresh, level, true).diagnostics == [d, d]
            && ScanLines([line], ScanLines([line], Fresh, level, true).matchers, level, true).diagnostics == [d]
  {
    TokenLineDiagnostic(line, p, le, ce, Fresh, level);
    CorrectedIsPerLine([line, line], Fresh, level);
    CorrectedIsPerLine([line], ScanLines([line], Fresh, level, true).matchers, level);
    ScanLineFresh(line, level);
    assert [line, line][..1] == [line];
    assert [line][..0] == [];
  }

  /** The line gdlint prints for a file without problems. */
  const CleanReport := "Success: no problems found"

  /** That line contains none of the literals the three recognisers need. */
  lemma CleanReportUnrecognised()
    ensures !Contains(CleanReport, ".gd:") && !Contains(CleanReport, " at line ") && !Contains(CleanReport, ": Unexpected token")
  {
    NotContainsChar(CleanReport, ".gd:", 0);
    NotContainsChar(CleanReport, " at line ", 1);
    NotContainsChar(CleanReport, ": Unexpected token", 2);
  }

  /** Nor does it hold the fallback's error marker; it is a single line with no padding. */
  lemma CleanReportUnmarked()
    ensures !HasErrorMarker(CleanReport) && IsTrimmed(CleanReport) && '\n' !in CleanReport
  {
    NotContainsChar(CleanReport, "Error:", 0);
    NotContainsPair(CleanReport, "error:", 1);
  }

  /** gdlint's output for such a file, stdout with its final newline and an
      empty stderr, comes down to that one line. */
  lemma CleanReportLines()
    ensures PrepareLines(Output(Some(CleanReport + "\n"), Some(""))) == [CleanReport]
  {
    CleanReportUnmarked();
    var parts := [CleanReport, ""];
    assert Join(parts) == CleanReport + "\n" by { assert Join(parts[1..]) == ""; }
    SplitJoin(parts);
    TrimTrimmed(CleanReport);
    TrimTrimmed("");
    assert TrimAll(parts) == parts by { assert TrimAll(parts[1..]) == [""]; }
    assert NonEmpty(parts) == [CleanReport] by { assert NonEmpty(parts[1..]) == []; }
    assert Split("") == [""];
    assert NonEmpty(TrimAll([""])) == [];
    TrimNonEmptyAppend(parts, [""]);
  }

  /** gdlint's report for a file without problems yields no diagnostic and
      no exception, from any state and in either pipeline. */
  lemma CleanReportQuiet(st: Matchers, level: string, resetsToken: bool)
    ensures var r := ScanLines(PrepareLines(Output(Some(CleanReport + "\n"), Some(""))), st, level, resetsToken);
            r.diagnostics == [] && !r.thrown
  {
    assert Quiet(CleanReport) by {
      CleanReportUnrecognised();
      CleanReportUnmarked();
    }
    CleanReportLines();
    QuietLines([CleanReport], st, level, resetsToken);
  }

  // ---------------------------------------------------------------------
  // Concrete lines

  /** parseInt("10"). */
  lemma DecimalTen()
    ensures Decimal("10") == 10
  {
    assert "10"[..1] == "1";
    assert "1"[..0] == "";
  }

  lemma GeneralScenarioParts()
    ensures AllIn("foo", Word) && AllIn("10", Digit) && AllIn("Unexpected indent", NonTerminator)
  {
  }

  lemma GeneralScenarioText()
    ensures GeneralLine("foo", "10", "Unexpected indent") == "foo.gd:10: Error: Unexpected indent"
  {
  }

  /** `foo.gd:10: Error: Unexpected indent` yields one diagnostic on line 9
      (zero-based), columns 0 to 34, with the message `Unexpected indent`. */
  lemma GeneralScenario(level: string)
    ensures ScanLine("foo.gd:10: Error: Unexpected indent", Fresh, level).outcome
            == Adds(Diagnostic(Range(9, 0, 9, 34), "Unexpected indent", Configured(level)))
  {
    GeneralScenarioText();
    GeneralScenarioParts();
    GeneralLineShape("foo", "10", "Unexpected indent");
    assert !Contains(GeneralLine("foo", "10", "Unexpected indent")[..0], ".gd:");
    GeneralLineDiagnostic(GeneralLine("foo", "10", "Unexpected indent"), 0, 3, 9, Fresh, level);
    DecimalTen();
  }

  /** The same line printed with the path of the file in front of the base name. */
  const PathLine := "/p/" + "foo.gd:10: Error: Unexpected indent"

  /** Its parts: the base name starts after the last `/`, and the
      directory part holds no `.gd:`. */
  lemma PathLineShape()
    ensures GeneralShape(PathLine, 3, 6, 12) && !IsWord(PathLine[2]) && !Contains(PathLine[..3], ".gd:")
    ensures Captured(PathLine, Group(3, 9)) == "foo.gd" && Captured(PathLine, Group(10, 12)) == "10"
    ensures Captured(PathLine, Group(21, |PathLine|)) == "Unexpected indent"
  {
    PathLineText();
    PathLineParts(PathLine);
  }

  lemma PathLineText()
    ensures PathLine == "/p/" + GeneralLine("foo", "10", "Unexpected indent")
  {
    GeneralScenarioText();
  }

  lemma PathLineParts(line: string)
    requires line == "/p/" + GeneralLine("foo", "10", "Unexpected indent")
    ensures GeneralShape(line, 3, 6, 12) && !IsWord(line[2]) && !Contains(line[..3], ".gd:")
    ensures Captured(line, Group(3, 9)) == "foo.gd" && Captured(line, Group(10, 12)) == "10"
    ensures Captured(line, Group(21, |line|)) == "Unexpected indent"
  {
    GeneralScenarioParts();
    PrefixedGeneralLineShape("/p/", "foo", "10", "Unexpected indent");
    assert line[..3] == "/p/";
    NotContainsChar("/p/", ".gd:", 1);
  }

  /** The search skips the directory part: the diagnostic is the one of the
      bare line, spanning the longer line, and the log names `foo.gd`. */
  lemma PathScenario(level: string)
    ensures var r := ScanLine(PathLine, Fresh, level);
            && r.outcome == Adds(Diagnostic(Range(9, 0, 9, 37), "Unexpected indent", Configured(level)))
            && r.log == ["Error: " + "foo.gd" + ":" + IntText(9) + ": " + "Unexpected indent" + "\n"]
  {
    PathLineShape();
    PathParts(PathLine, level);
  }

  lemma PathParts(line: string, level: string)
    requires GeneralShape(line, 3, 6, 12) && !IsWord(line[2]) && !Contains(line[..3], ".gd:") && |line| == 38
    requires Captured(line, Group(3, 9)) == "foo.gd" && Captured(line, Group(10, 12)) == "10"
    requires Captured(line, Group(21, |line|)) == "Unexpected indent"
    ensures var r := ScanLine(line, Fresh, level);
            && r.outcome == Adds(Diagnostic(Range(9, 0, 9, 37), "Unexpected indent", Configured(level)))
            && r.log == ["Error: " + "foo.gd" + ":" + IntText(9) + ": " + "Unexpected indent" + "\n"]
  {
    GeneralLineDiagnostic(line, 3, 6, 12, Fresh, level);
    DecimalTen();
  }

  /** A general line whose message is empty, as the trimming leaves it. */
  const EmptyMessageLine := "foo.gd:3: Error:"

  /** Its message group is undefined, so building its diagnostic throws,
      after the entry was logged. */
  lemma EmptyMessageScenario(level: string)
    ensures var r := ScanLine(EmptyMessageLine, Fresh, level);
            r.outcome == Throws && |r.log| == 1
  {
    EmptyMessageMatch();
    GeneralSearchFinds(EmptyMessageLine, 0, 0);
  }

  /** GeneralError matches it from the start, with no message group. */
  lemma EmptyMessageMatch()
    ensures GeneralAt(EmptyMessageLine, 0) == Some(Found(16, [Some(Group(0, 16)), Some(Group(0, 6)), Some(Group(7, 8)), None]))
  {
    EmptyMessageTail();
    assert SpanEnd(EmptyMessageLine, 0, Word) == 3;
  }

  lemma EmptyMessageTail()
    ensures GeneralTail(EmptyMessageLine, 3) == Some((Group(7, 8), Group(16, 16)))
  {
    var s := EmptyMessageLine;
    assert HasAt(s, 3, ".gd:");
    assert SpanEnd(s, 7, Digit) == 8;
    assert HasAt(s, 8, ":");
    assert HasAt(s, 10, "Error:");
    assert ErrorMessage(s, 9) == Some(Group(16, 16));
  }

  /** Such a line ends the run: nothing after it is scanned and no
      diagnostic is kept. */
  lemma EmptyMessageAborts(rest: seq<string>, level: string, resetsToken: bool)
    ensures var r := ScanLines([EmptyMessageLine] + rest, Fresh, level, resetsToken);
            r.thrown && r.diagnostics == []
  {
    var lines := [EmptyMessageLine] + rest;
    EmptyMessageScenario(level);
    ScanLinesOne(EmptyMessageLine, Fresh, level, resetsToken);
    assert lines[..1] == [EmptyMessageLine];
    ScanLinesThrown(lines, 1, Fresh, level, resetsToken);
  }

  /** A report in a shape none of the patterns knows. */
  const UsageError := "gdlint: error: unrecognized arguments"

  /** It names no file, no position and no unexpected token. */
  lemma UsageErrorUnrecognised()
    ensures !Contains(UsageError, ".gd:") && !Contains(UsageError, " at line ") && !Contains(UsageError, ": Unexpected token")
  {
    UsageErrorNoFile();
    UsageErrorNoPosition();
    NotContainsChar(UsageError, ": Unexpected token", 2);
  }

  lemma UsageErrorNoFile()
    ensures !Contains(UsageError, ".gd:")
  {
    NotContainsChar(UsageError, ".gd:", 0);
  }

  lemma UsageErrorNoPosition()
    ensures !Contains(UsageError, " at line ")
  {
    NotContainsPair(UsageError, " at line ", 1);
  }

  /** It yields the unlocated Error diagnostic carrying the whole line,
      whatever the configured level and the state of the regular expressions. */
  lemma UsageErrorScenario(st: Matchers, level: string)
    ensures ScanLine(UsageError, st, level).outcome == Adds(Diagnostic(Range(0, 0, 0, 10), UsageError, Error))
  {
    UsageErrorUnrecognised();
    assert HasAt(UsageError, 8, "error:");
    OtherLineDiagnostic(UsageError, st, level);
  }
}

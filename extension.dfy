/**
 * The extension's module state and its event handlers
 * (src/extension.ts:6-16 and 19-207), run in place: the four global regular
 * expressions whose `lastIndex` carries over from line to line and from one
 * lint to the next, the output channel, the diagnostic collection and the
 * pending debounce timer. Every method is proved against the functions of
 * modules Lint and Debounce.
 */
module Extension {
  import opened Wrappers
  import opened Patterns
  import opened Diagnostics
  import opened Documents
  import opened Lint
  import opened Debounce
  import opened Host

  /** The module-level state of `extension.ts` the linter uses: the four
      regular expressions and the configured severity name. */
  class Linter {
    const generalError: RegExp
    const tokenError: RegExp
    const unexpectedToken: RegExp
    const tokenFile: RegExp
    const severityLevel: string

    /** Each regular expression holds its own pattern; in particular they are
        four distinct objects. */
    predicate Valid() reads this {
      generalError.pattern == GeneralError && tokenError.pattern == TokenError
      && unexpectedToken.pattern == UnexpectedToken && tokenFile.pattern == TokenFile
    }

    /** The `lastIndex` of the four regular expressions. */
    function State(): Matchers
      reads generalError, tokenError, unexpectedToken, tokenFile
    {
      Matchers(generalError.lastIndex, tokenError.lastIndex, unexpectedToken.lastIndex, tokenFile.lastIndex)
    }

    /** Loading the module: fresh regular expressions, every `lastIndex` 0. */
    constructor (level: string)
      ensures Valid() && State() == Fresh && severityLevel == level
      ensures fresh(generalError) && fresh(tokenError) && fresh(unexpectedToken) && fresh(tokenFile)
    {
      generalError := new RegExp(GeneralError);
      tokenError := new RegExp(TokenError);
      unexpectedToken := new RegExp(UnexpectedToken);
      tokenFile := new RegExp(TokenFile);
      severityLevel := level;
    }

    /** `scanLineForGeneralError`: true exactly when the general pattern
        matches from its `lastIndex`; then one log entry, and one diagnostic
        unless its constructors throw, which `thrown` reports. */
    method ScanLineForGeneralError(line: string, diagArr: seq<Diagnostic>, ochan: OutputChannel)
      returns (found: bool, thrown: bool, diags: seq<Diagnostic>)
      requires Valid()
      modifies generalError, ochan
      ensures var (g, gi) := Patterns.Exec(GeneralError, line, old(generalError.lastIndex));
        found == g.Some? && generalError.lastIndex == gi
        && (found ==> var o := Pushed(GeneralDiagnostic(line, g.value, severityLevel));
                      diags == diagArr + Added(o) && thrown == o.Throws?
                      && ochan.text == old(ochan.text) + [GeneralLog(line, g.value)])
        && (!found ==> diags == diagArr && !thrown && ochan.text == old(ochan.text))
    {
      var m := generalError.Exec(line);
      if m.None? {
        return false, false, diagArr;
      }
      ochan.Append(GeneralLog(line, m.value));
      var d := GeneralDiagnostic(line, m.value, severityLevel);
      if d.None? {
        return true, true, diagArr;
      }
      return true, false, diagArr + [d.value];
    }

    /** `scanLineForTokenError`: runs the file name pattern (only for the
        log), then the token pattern; true exactly when the latter matches. */
    method ScanLineForTokenError(line: string, diagArr: seq<Diagnostic>, ochan: OutputChannel)
      returns (found: bool, thrown: bool, diags: seq<Diagnostic>)
      requires Valid()
      modifies tokenFile, tokenError, ochan
      ensures var (f, fi) := Patterns.Exec(TokenFile, line, old(tokenFile.lastIndex));
        var (t, ti) := Patterns.Exec(TokenError, line, old(tokenError.lastIndex));
        found == t.Some? && tokenFile.lastIndex == fi && tokenError.lastIndex == ti
        && (found ==> var o := Pushed(TokenDiagnostic(line, t.value, severityLevel));
                      diags == diagArr + Added(o) && thrown == o.Throws?
                      && ochan.text == old(ochan.text) + [TokenLog(FileName(line, f), line, t.value)])
        && (!found ==> diags == diagArr && !thrown && ochan.text == old(ochan.text))
    {
      var f := tokenFile.Exec(line);
      var file := if f.Some? then GroupText(line, f.value, 1) else "";
      var m := tokenError.Exec(line);
      if m.None? {
        return false, false, diagArr;
      }
      ochan.Append(TokenLog(file, line, m.value));
      var d := TokenDiagnostic(line, m.value, severityLevel);
      if d.None? {
        return true, true, diagArr;
      }
      return true, false, diagArr + [d.value];
    }

    /** `scanLineForUnexpectedTokenError`: the same with the unexpected
        token pattern, whose fourth group is the message. */
    method ScanLineForUnexpectedTokenError(line: string, diagArr: seq<Diagnostic>, ochan: OutputChannel)
      returns (found: bool, thrown: bool, diags: seq<Diagnostic>)
      requires Valid()
      modifies tokenFile, unexpectedToken, ochan
      ensures var (f, fi) := Patterns.Exec(TokenFile, line, old(tokenFile.lastIndex));
        var (u, ui) := Patterns.Exec(UnexpectedToken, line, old(unexpectedToken.lastIndex));
        found == u.Some? && tokenFile.lastIndex == fi && unexpectedToken.lastIndex == ui
        && (found ==> var o := Pushed(UnexpectedDiagnostic(line, u.value, severityLevel));
                      diags == diagArr + Added(o) && thrown == o.Throws?
                      && ochan.text == old(ochan.text) + [UnexpectedLog(FileName(line, f), line, u.value)])
        && (!found ==> diags == diagArr && !thrown && ochan.text == old(ochan.text))
    {
      var f := tokenFile.Exec(line);
      var file := if f.Some? then GroupText(line, f.value, 1) else "";
      var m := unexpectedToken.Exec(line);
      if m.None? {
        return false, false, diagArr;
      }
      ochan.Append(UnexpectedLog(file, line, m.value));
      var d := UnexpectedDiagnostic(line, m.value, severityLevel);
      if d.None? {
        return true, true, diagArr;
      }
      return true, false, diagArr + [d.value];
    }

    /** The body of the `forEach` in `lintDocument`: the resets, the three
        helpers in order with short-circuit, then the fallback. It does what
        `Lint.ScanLine` gives the line from the reset state; `thrown` says a
        constructor threw, which ends `lintDocument`. */
    method LintLine(line: string, ghost st: Matchers, diagArr: seq<Diagnostic>, ochan: OutputChannel, resetsToken: bool)
      returns (diags: seq<Diagnostic>, thrown: bool, ghost r: LineResult)
      requires Valid() && State() == st
      modifies generalError, tokenError, unexpectedToken, tokenFile, ochan
      ensures r == ScanLine(line, Reset(st, resetsToken), severityLevel)
      ensures diags == diagArr + Added(r.outcome) && thrown == r.outcome.Throws?
      ensures ochan.text == old(ochan.text) + r.log && State() == r.matchers
    {
      r := ScanLine(line, Reset(st, resetsToken), severityLevel);
      tokenFile.lastIndex := 0;
      generalError.lastIndex := 0;
      unexpectedToken.lastIndex := 0;
      if resetsToken {
        tokenError.lastIndex := 0;
      }
      var found;
      found, thrown, diags := ScanLineForGeneralError(line, diagArr, ochan);
      if found {
        return;
      }
      found, thrown, diags := ScanLineForTokenError(line, diags, ochan);
      if found {
        return;
      }
      found, thrown, diags := ScanLineForUnexpectedTokenError(line, diags, ochan);
      if found {
        return;
      }
      if Text.Contains(line, "Error:") || Text.Contains(line, "error:") {
        var d := NewDiagnostic(NewRange(0, 0, 0, 10), Some(line), Some(Error));
        if d.None? {
          thrown := true;
          return;
        }
        diags := diags + [d.value];
      }
    }

    /** One more round of the `forEach` after rounds that did not throw and
        left the state `run` describes. */
    method LintNext(line: string, ghost text: seq<string>, ghost run: Run,
                    diagArr: seq<Diagnostic>, ochan: OutputChannel, resetsToken: bool)
      returns (diags: seq<Diagnostic>, thrown: bool, ghost next: Run)
      requires Valid() && !run.thrown
      requires diagArr == run.diagnostics && ochan.text == text + run.log && State() == run.matchers
      modifies generalError, tokenError, unexpectedToken, tokenFile, ochan
      ensures next == Continue(run, line, severityLevel, resetsToken)
      ensures diags == next.diagnostics && thrown == next.thrown && ochan.text == text + next.log && State() == next.matchers
    {
      ghost var last;
      diags, thrown, last := LintLine(line, run.matchers, diagArr, ochan, resetsToken);
      AppendAssoc(text, run.log, last.log);
      next := Run(run.diagnostics + Added(last.outcome), run.log + last.log, last.matchers, last.outcome.Throws?);
    }

    /** The `forEach` over the prepared lines, left at the first line whose
        diagnostic throws: what `Lint.ScanLines` gives them from the current
        state. */
    method LintLines(lines: seq<string>, ochan: OutputChannel, resetsToken: bool)
      returns (diagArr: seq<Diagnostic>, thrown: bool)
      requires Valid()
      modifies generalError, tokenError, unexpectedToken, tokenFile, ochan
      ensures var r := ScanLines(lines, old(State()), severityLevel, resetsToken);
        diagArr == r.diagnostics && thrown == r.thrown && ochan.text == old(ochan.text) + r.log && State() == r.matchers
    {
      ghost var st := State();
      ghost var text := ochan.text;
      diagArr, thrown := [], false;
      var i := 0;
      ghost var run := ScanLines(lines[..0], st, severityLevel, resetsToken);
      assert run == Run([], [], st, false);
      while i < |lines| && !thrown
        invariant i <= |lines| && run == ScanLines(lines[..i], st, severityLevel, resetsToken)
        invariant diagArr == run.diagnostics && thrown == run.thrown
        invariant ochan.text == text + run.log && State() == run.matchers
      {
        ScanLinesPrefix(lines, i, st, severityLevel, resetsToken);
        diagArr, thrown, run := LintNext(lines[i], text, run, diagArr, ochan, resetsToken);
        i := i + 1;
      }
      ScanLinesStopped(lines, i, st, severityLevel, resetsToken);
    }

    /** `lintDocument` on a document whose linter run wrote `out`. A document
        that is not a GDScript file (scheme `file`) gets no diagnostics and nothing
        changes. For any other the log and the regular expressions change as
        the lines are scanned; when no constructor throws, its entry in the
        collection is replaced by the diagnostics of the output's lines, which
        are also returned; when one throws, `None` stands for the exception
        and the collection is left as it was. `resetsToken` says whether
        TokenError's `lastIndex` is reset before each line too (false as
        written). */
    method LintDocument(doc: Document, out: Output, diag: DiagnosticCollection, ochan: OutputChannel, resetsToken: bool)
      returns (result: Option<seq<Diagnostic>>)
      requires Valid()
      modifies generalError, tokenError, unexpectedToken, tokenFile, ochan, diag
      ensures !Lintable(doc) ==> result == Some([]) && State() == old(State())
                                 && diag.entries == old(diag.entries) && ochan.text == old(ochan.text)
      ensures Lintable(doc) ==>
        var r := ScanLines(PrepareLines(out), old(State()), severityLevel, resetsToken);
        && ochan.text == old(ochan.text) + r.log && State() == r.matchers
        && (r.thrown ==> result == None && diag.entries == old(diag.entries))
        && (!r.thrown ==> result == Some(r.diagnostics) && diag.entries == old(diag.entries)[doc.uri := r.diagnostics])
    {
      if doc.uri.scheme != "file" || doc.languageId != "gdscript" {
        return Some([]);
      }
      var diagArr, thrown := LintLines(PrepareLines(out), ochan, resetsToken);
      if thrown {
        return None;
      }
      diag.Set(doc.uri, diagArr);
      result := Some(diagArr);
    }
  }

  /** What `activate` sets up: the output channel, the diagnostic collection
      and the `timeout` of the debounce, here the document of the pending timer. */
  class Activation {
    const linter: Linter
    const ochan: OutputChannel
    const diag: DiagnosticCollection
    var timeout: Option<Document>

    predicate Valid() reads this, linter {
      linter.Valid()
    }

    constructor (l: Linter)
      requires l.Valid()
      ensures Valid() && linter == l && timeout == None
      ensures fresh(ochan) && fresh(diag) && ochan.text == [] && diag.entries == map[]
    {
      linter := l;
      ochan := new OutputChannel();
      diag := new DiagnosticCollection();
      timeout := None;
    }

    /** `lintOnChange`: cancel the pending timer and arm one for `doc`. */
    method LintOnChange(doc: Document)
      modifies this
      ensures timeout == Some(doc)
    {
      timeout := Some(doc);
    }

    /** The `onDidChangeActiveTextEditor` listener. */
    method OnDidChangeActiveTextEditor(editor: Option<Document>)
      modifies this
      ensures timeout == Step(old(timeout), ActiveEditorChanged(editor))
    {
      if editor.Some? {
        LintOnChange(editor.value);
      }
    }

    /** The `onDidChangeTextDocument` listener: only a document without
        unsaved changes is linted. */
    method OnDidChangeTextDocument(doc: Document)
      modifies this
      ensures timeout == Step(old(timeout), TextDocumentChanged(doc))
    {
      if !doc.isDirty {
        LintOnChange(doc);
      }
    }

    /** The timer firing: the pending document is linted, with the output the
        linter wrote for it, and nothing is pending any more. `resetsToken`
        is passed on to `LintDocument` (false as written). */
    method TimerFires(out: Output, resetsToken: bool) returns (result: Option<seq<Diagnostic>>)
      requires Valid() && timeout.Some?
      modifies this, linter.generalError, linter.tokenError, linter.unexpectedToken, linter.tokenFile, ochan, diag
      ensures timeout == Step(old(timeout), TimerFired)
      ensures var doc := old(timeout).value;
        if Lintable(doc) then
          var r := ScanLines(PrepareLines(out), old(linter.State()), linter.severityLevel, resetsToken);
          && ochan.text == old(ochan.text) + r.log && linter.State() == r.matchers
          && (r.thrown ==> result == None && diag.entries == old(diag.entries))
          && (!r.thrown ==> result == Some(r.diagnostics) && diag.entries == old(diag.entries)[doc.uri := r.diagnostics])
        else
          result == Some([]) && linter.State() == old(linter.State())
          && diag.entries == old(diag.entries) && ochan.text == old(ochan.text)
    {
      var doc := timeout.value;
      timeout := None;
      result := linter.LintDocument(doc, out, diag, ochan, resetsToken);
    }
  }
}

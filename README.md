# GDScript Formatter & Linter: the gdlint output scanner and the lint debounce

This project models the linting half of the VS Code extension in
`src/extension.ts` and proves properties of that model.

- **The gdlint output scanner.** `lintDocument` takes what `gdlint` wrote
  for a document. It splits stdout and then stderr into lines, trims each
  line and drops the empty ones. Each remaining line goes to three
  recognisers in a fixed order:
  - `scanLineForGeneralError`;
  - `scanLineForTokenError`;
  - `scanLineForUnexpectedTokenError`.

  The first recogniser that matches logs one entry and pushes one
  diagnostic. When none matches, a line with an error marker gets an
  unlocated Error diagnostic. The array then replaces the document's entry
  in the diagnostic collection and is returned, unless building a
  diagnostic threw first.
- **The four regular expressions.** They carry a `lastIndex` because of
  their `g` flag. Each becomes an exact recogniser over strings (module
  `Patterns`). `RegExp.prototype.exec` is modelled with the `lastIndex`
  rules of a global regular expression.
- **The debounce in `activate`.** A new active editor, or a change to a
  saved document, cancels the pending 300 ms timer and arms a new one for
  that document. When the timer fires, that document is linted.

The modules follow the program:

| module | what it holds |
|---|---|
| `Text` | The character classes `\w`, `\d`, `\s` and `.`, plus `trim`, `split('\n')`, `includes` and the `parseInt` of a digit string. |
| `Patterns` | The four regular expressions, a search from a position, and `exec`. |
| `Shapes` | What each pattern yields on a line of the shape it is written for, and the literals a match needs. |
| `Diagnostics`, `Documents` | The VS Code values. |
| `Lint` | The scanner as functions, which serve as the specification. |
| `Host` | The `RegExp`, `OutputChannel` and `DiagnosticCollection` objects, changed in place. |
| `Extension` | Class `Linter` holds the module-level regular expressions and the severity name and runs each step in place. Class `Activation` holds the debounce's `timeout`. Every method is proved against `Lint` and `Debounce`. |
| `Debounce` | The debounce as a function of the event sequence. |

Some decisions about how the model reads the code:

- **Matching.** A greedy `\w+` or `\d+` takes its longest run. A greedy
  `(.+)` followed by more pattern takes the furthest end after which the
  rest matches (`Patterns.LastWhere`). `.` matches anything but `\n`, `\r`,
  U+2028 and U+2029.
- **Captures.** Captures are positions in the line. A group that took no
  part is `None`, which happens for the optional message `(.+)?` of the
  general pattern. Such a message is logged as `undefined`.
- **Severity.** `vscode.DiagnosticSeverity[severityLevel]` is the
  severity of that name. Any other name gives `undefined`, and the
  `Diagnostic` constructor then uses its default, Error.
- **VS Code's constructors.** `new vscode.Range` throws on a negative line
  or character and otherwise orders its two ends. `new vscode.Diagnostic`
  throws on an undefined or empty message. A general line reporting line 0
  or carrying no message therefore throws after its entry was logged. The
  exception leaves `lintDocument` before `diag.set` (src/extension.ts:178):
  the lines after it are not scanned, the collection keeps its old entry,
  and nothing is returned. The model writes such a line's outcome as
  `Lint.Outcome.Throws`, and `LintDocument` returns `None`.
- **The fallback's marker.** The code (src/extension.ts:168) tests the two
  exact spellings `Error:` and `error:`, and the model follows the code.
- **Resets.** The code resets only three of the four regular expressions
  before each line. The model keeps that as written and also gives the
  corrected pipeline (see Findings). `resetsToken` chooses between them:
  `false` is the code as written.
- **Inputs.**
  - The linter's output (`Lint.Output`) is a parameter.
  - The severity name is fixed when the model is constructed.

## Model

| member | source | states |
|---|---|---|
| Text.Trim | src/extension.ts:156 | `line.trim()` has no whitespace at either end and is no longer than the line. |
| Text.TrimStripsSpace | src/extension.ts:156 | Trimming removes only whitespace at the two ends: the result is a slice of the line with whitespace before and after it. |
| Text.TrimTrimmed | src/extension.ts:156 | Trimming an already trimmed line gives it back, so trimming is idempotent. |
| Text.Split | src/extension.ts:152-153 | `split('\n')` gives at least one piece, no piece holds a newline, and joining the pieces with newlines gives the text back. |
| Text.SplitJoin | src/extension.ts:152-153 | Splitting undoes joining lines that hold no newline. |
| Text.Decimal | src/extension.ts:29 | `parseInt` of a `(\d+)` group, exact on naturals. The value is 0 exactly when every digit is `0`, so `00` reports line 0 as well. |
| Text.DecimalDigits | src/extension.ts:32 | A number is written as a non-empty run of decimal digits. |
| Text.DecimalRoundTrip | src/extension.ts:29 | `parseInt` reads back the decimal spelling of every natural number. |
| Text.Contains | src/extension.ts:168 | `line.includes(lit)`: `lit` occurs at some position, so a literal longer than the line is never included. |
| Text.ContainsEmpty | src/extension.ts:168 | Every line includes the empty literal. |
| Text.NotContainsChar | src/extension.ts:168 | A line lacking one character of a literal does not `includes` that literal. |
| Text.NotContainsPair | src/extension.ts:168 | A line in which two neighbouring characters of a literal never appear side by side does not `includes` it. |
| Patterns.Number | src/extension.ts:6 | `(\d+)` takes the whole run of digits at its position and fails on an empty run. |
| Patterns.ErrorMessage | src/extension.ts:6 | The message group of `\s?Error:\s?(.+)?` starts after `Error:` and lies inside the line. |
| Patterns.GeneralTail | src/extension.ts:6 | The line-number group follows `.gd:` and is a run of digits, and the message group comes after it. |
| Patterns.GeneralAt | src/extension.ts:6 | Every match of the general pattern has four capture slots: the whole match, the file group, a digit group, and a message group that may be undefined. |
| Patterns.LastWhere | src/extension.ts:7-10 | The end a greedy `(.+)` takes: the furthest position at which the rest of the pattern matches, and none when the rest matches nowhere. |
| Patterns.TokenTail | src/extension.ts:7 | ` at line (\d+), column (\d+)\.` gives two digit groups in order, and the closing `.` lies inside the line. |
| Patterns.TokenAt | src/extension.ts:7 | Every match of the token pattern has a description group and two digit groups. |
| Patterns.UnexpectedTail | src/extension.ts:9 | `:(\d+):(\d+): Unexpected token(.+)` gives two digit groups and a non-empty rest, in order. |
| Patterns.UnexpectedAt | src/extension.ts:8-9 | Every match of the unexpected-token pattern has a text group, two digit groups and a message group. |
| Patterns.FileGroup | src/extension.ts:10 | The group `(.+\.gd)` is non-empty and the match ends after it. |
| Patterns.FileAt | src/extension.ts:10 | Every match of the file-name pattern has its file group. |
| Patterns.Search | src/extension.ts:25 | The search gives the leftmost position from `lastIndex` at which the pattern matches, with nothing to its left, or none when no position matches. |
| Patterns.Exec | src/extension.ts:25 | `exec`: a `lastIndex` past the end fails; otherwise it gives the leftmost match from `lastIndex`. `lastIndex` becomes the match's end, or 0 on failure. |
| Shapes.GeneralLineShape | src/extension.ts:6 | `<word>.gd:<N>: Error: <msg>` has the general shape, and its groups hold the file name, the digits and the message. |
| Shapes.GeneralShapeShift | src/extension.ts:6 | A line of the general shape keeps it, moved along, when any prefix is put before it. |
| Shapes.PrefixedGeneralLineShape | src/extension.ts:6 | `<prefix><word>.gd:<N>: Error: <msg>` has the general shape from the end of the prefix, and its groups hold the file name, the digits and the message. |
| Shapes.GeneralAtShape | src/extension.ts:6 | On a line of the general shape the pattern matches from the base name to the end of the line. Group 1 is `<word>.gd`, group 2 the digits, and group 3 the message, undefined when it is empty. |
| Shapes.GeneralNotBefore | src/extension.ts:6 | Before a base name that follows a non-word character, in a prefix holding no `.gd:`, the pattern matches at no position. |
| Shapes.GeneralNoMatchBefore | src/extension.ts:6 | The same for the whole prefix: no position of it starts a match. |
| Shapes.GeneralSearchFinds | src/extension.ts:25 | A search from `lastIndex` that no position before `i` can match, where `i` matches, gives the match at `i`. |
| Shapes.TokenLineShape | src/extension.ts:7 | `<desc> at line <L>, column <C>.` has the token shape, and its groups hold `desc`, `L` and `C`. |
| Shapes.TokenTailNotAfter | src/extension.ts:7 | On a token line the tail matches nowhere after the description, so the greedy `(.+)` ends exactly where the description does. |
| Shapes.TokenAtShape | src/extension.ts:7 | On a token line the pattern matches the whole line, with the whole description as group 1. |
| Shapes.UnexpectedLineShape | src/extension.ts:8-9 | `Token<X>:<L>:<C>: Unexpected token<Y>` with no `:` in `Y` has the unexpected-token shape, and its groups hold `X`, `L`, `C` and `Y`. |
| Shapes.UnexpectedTailNotAfter | src/extension.ts:9 | On such a line the tail matches nowhere after `X`. |
| Shapes.UnexpectedAtShape | src/extension.ts:8-9 | On such a line the pattern matches the whole line, with `Y` as group 4. |
| Shapes.GeneralNeedsMarker | src/extension.ts:6 | The general pattern only matches a line containing `.gd:` and `Error:`. |
| Shapes.TokenNeedsAtLine | src/extension.ts:7 | The token pattern only matches a line containing ` at line `. |
| Shapes.UnexpectedNeedsMarker | src/extension.ts:9 | The unexpected-token pattern only matches a line containing `: Unexpected token`. |
| Shapes.SearchNeedsLiteral | src/extension.ts:25 | The same holds for a search from any `lastIndex`. |
| Diagnostics.SeverityNamed | src/extension.ts:36 | `DiagnosticSeverity[name]` is the severity carrying that name, or undefined when no severity has it. |
| Diagnostics.SeverityNameRoundTrip | src/extension.ts:36 | Every severity is found again under its own name. |
| Diagnostics.NewRange | src/extension.ts:34 | `new vscode.Range` can be built exactly when no number is negative. It then runs from the earlier position to the later one, its ends being the two positions it was given. |
| Diagnostics.SeverityOrDefault | src/extension.ts:36 | An undefined severity becomes Error; a severity that was given is kept. |
| Diagnostics.NewDiagnostic | src/extension.ts:33-37 | `new vscode.Diagnostic` can be built exactly when its range was built and its message is defined and non-empty. It then holds that range and message and the given severity, or Error. |
| Lint.IntText | src/extension.ts:32 | A line number written into the log reads back as that number, with a leading `-` when it is negative. |
| Lint.LineRange | src/extension.ts:34 | The range of a located diagnostic, columns 0 to `\|line\|-1` of the reported line, can be built exactly when that line number is not negative and the output line is not empty. |
| Lint.GeneralDiagnostic | src/extension.ts:28-37 | The general diagnostic can be built exactly when the reported line N is at least 1 and the message group took part. It then lies on line N-1 from column 0 to `\|line\|-1`, with the message group as message and the configured severity. |
| Lint.GeneralLogAgrees | src/extension.ts:28-32 | The general log entry names the file group, the diagnostic's line N-1 and its message. An undefined message is written `undefined`. |
| Lint.FileName | src/extension.ts:48-50 | `tokenFile` is empty when the file-name pattern did not match, and otherwise a name longer than `.gd` that ends in `.gd`. |
| Lint.TokenDiagnostic | src/extension.ts:55-64 | The token diagnostic can always be built. It lies on the reported line L from column 0 to `\|line\|-1`, with the description as message and the configured severity. |
| Lint.TokenLogAgrees | src/extension.ts:55-59 | The token log entry names the file, the diagnostic's line, the column the diagnostic leaves out, and the diagnostic's message. |
| Lint.UnexpectedDiagnostic | src/extension.ts:82-91 | The unexpected-token diagnostic can always be built. It lies on line L with group 4 as message and the configured severity. |
| Lint.UnexpectedLogAgrees | src/extension.ts:75-86 | The unexpected-token log entry names the file, the diagnostic's line, the column and the diagnostic's message. |
| Lint.HasErrorMarker | src/extension.ts:168 | The test for the two exact spellings `Error:` and `error:`. A line passing it has at least six characters, so the fallback's diagnostic can always be built. |
| Lint.UnmatchedLine | src/extension.ts:163-174 | A line on which all three `exec` calls fail, from whatever state, gets no log entry. It gets the unlocated diagnostic (0,0)-(0,10) with the whole line as message and severity Error, whatever the configured level, exactly when it has an error marker, and nothing otherwise. |
| Lint.ScanLine | src/extension.ts:158-175 | One line adds at most one log entry, a log entry only comes with a diagnostic or an exception, and an exception always comes after its log entry. |
| Lint.ScanLineFresh | src/extension.ts:158-166 | With every `lastIndex` at 0, a line gets its stateless reading: general, else token, else unexpected token, else the fallback. |
| Lint.FileNameLogOnly | src/extension.ts:48-53 | The file-name pattern's `lastIndex` changes neither the diagnostic nor the state of the other three patterns. |
| Lint.GeneralLineDiagnostic | src/extension.ts:25-37 | A line `<prefix><word>.gd:<N>: Error: <msg>`, where the prefix is empty or ends in a non-word character and holds no `.gd:`, is matched at the base name. When N is at least 1 and `msg` is non-empty, it yields one diagnostic (N-1,0)-(N-1,\|line\|-1) with message `msg` and the configured severity; otherwise building it throws. Either way the log gets `Error: <word>.gd:<N-1>: <msg or undefined>`. |
| Lint.GeneralLineFound | src/extension.ts:25 | On such a line the search from 0 skips the prefix and matches the rest of the line. |
| Lint.GeneralLineOutcome | src/extension.ts:28-37 | What the general helper pushes and logs for that match. |
| Lint.TokenLineDiagnostic | src/extension.ts:52-64 | A token line yields one diagnostic on line L itself from column 0 to \|line\|-1, with the description as message. The column C plays no part. |
| Lint.UnexpectedLineDiagnostic | src/extension.ts:79-91 | An unexpected-token line yields one diagnostic with range (L,0)-(L,\|line\|-1) and message `Y`, group 4. |
| Lint.OtherLineDiagnostic | src/extension.ts:163-175 | A line that none of the three patterns can match gets exactly the fallback and no log, whatever the regular expressions' state. |
| Lint.Pieces | src/extension.ts:152-153 | A stream that was not captured gives no lines. A captured one gives at least one newline-free piece, and the pieces join back to the stream. |
| Lint.TrimAll | src/extension.ts:156 | The map keeps one entry per line: the trimmed line. |
| Lint.NonEmpty | src/extension.ts:157 | The filter keeps no empty line, and keeps every non-empty line as often as it occurs. |
| Lint.NonEmptyAppend | src/extension.ts:157 | The filter keeps the order: filtering two runs of lines one after the other is filtering them together. |
| Lint.TrimAllAppend | src/extension.ts:156 | The map keeps the order in the same way. |
| Lint.PrepareLines | src/extension.ts:151-157 | The scanned lines are non-empty and trimmed. |
| Lint.PrepareJoined | src/extension.ts:151-157 | The scanned lines are stdout's lines followed by stderr's, in order. |
| Lint.PiecesJoined | src/extension.ts:152-157 | One stream comes back as the lines it was written from. |
| Lint.KeptAsTheyAre | src/extension.ts:156-157 | Trimming and filtering leave non-empty trimmed lines untouched. |
| Lint.TrimNonEmptyAppend | src/extension.ts:151-157 | Trimming and filtering work line by line, so both streams can be prepared separately. |
| Lint.Reset | src/extension.ts:159-161 | As written, every `lastIndex` but the token pattern's becomes 0 and the token pattern's is kept. The corrected pipeline sets all four to 0. |
| Lint.ScanLines | src/extension.ts:155-176 | The `forEach` adds at most one diagnostic and one log entry per line, appended in line order, and stops at the first line that throws. |
| Lint.ScanLinesPrefix | src/extension.ts:158-176 | When the lines before it did not throw, one more line extends the run by what that line adds, scanned from the state after the reset. |
| Lint.ScanLinesThrown | src/extension.ts:155-176 | Once a line has thrown, the lines after it change nothing. |
| Lint.ScanLinesStopped | src/extension.ts:155-176 | A run stopped at the end of the lines, or at a line that threw, is the run over all of them. |
| Lint.Outcomes | src/extension.ts:158-175 | Each line's stateless reading, one per line, in line order. |
| Lint.ReadingsThrows | src/extension.ts:155-176 | Collecting the outcomes ends with an exception exactly when one of them throws. |
| Lint.PerLineThrows | src/extension.ts:155-176 | The reference reading throws exactly when some line, read on its own, cannot get its diagnostic built. |
| Lint.PerLineStep | src/extension.ts:155-176 | The reference reading of one more line adds that line's own reading, unless an earlier line threw. |
| Lint.ContinueFresh | src/extension.ts:158-175 | With all four patterns reset, one more round adds exactly the line's stateless reading. |
| Lint.CorrectedIsPerLine | src/extension.ts:158-176 | When all four patterns are reset, the diagnostics and whether the run throws are each line's own reading in line order, up to the first line that throws, from any starting state. |
| Lint.CorrectedRepeatable | src/extension.ts:158-176 | With all four patterns reset, linting the same output twice gives the same diagnostics, and throws both times or neither. |
| Lint.QuietLines | src/extension.ts:163-175 | Lines without the patterns' literals and without an error marker give no diagnostic and no exception in either pipeline. |
| Lint.RepeatedTokenLineAsWritten | src/extension.ts:159-161 | As written, the same token line twice gives only one diagnostic, and re-linting a one-token-line output gives none. |
| Lint.TokenLineFirst | src/extension.ts:52-64 | A token line scanned from a fresh state yields its diagnostic and leaves the token pattern's `lastIndex` at the line's end. |
| Lint.ScanLinesOne | src/extension.ts:155-176 | A run over one line is what that line does after the reset. |
| Lint.ScanLinesTwo | src/extension.ts:155-176 | When the first of two lines does not throw, the run's diagnostics are the first line's followed by what the second adds, scanned from the state the first one left. |
| Lint.SecondTokenLineMissed | src/extension.ts:52-53 | A token line met with the token pattern's `lastIndex` at its end gets no diagnostic. |
| Lint.RepeatedTokenLineCorrected | src/extension.ts:159-161 | Resetting all four patterns, each occurrence of the token line yields its diagnostic, and re-linting gives it again. |
| Lint.CleanReportUnrecognised | src/extension.ts:163-166 | gdlint's clean report `Success: no problems found` matches none of the patterns. |
| Lint.CleanReportUnmarked | src/extension.ts:168 | The clean report carries no error marker and is a single trimmed line. |
| Lint.CleanReportLines | src/extension.ts:151-157 | The clean report with its final newline, plus an empty stderr, becomes exactly one line. |
| Lint.CleanReportQuiet | src/test/suite/extension.test.ts:46-53 | The clean report yields zero diagnostics and no exception from any state, in either pipeline. |
| Lint.DecimalTen | src/extension.ts:29 | `parseInt("10")` is 10. |
| Lint.GeneralScenario | src/extension.ts:25-37 | `foo.gd:10: Error: Unexpected indent` yields range (9,0)-(9,34) with message `Unexpected indent`. |
| Lint.PathScenario | src/extension.ts:25-37 | `/p/foo.gd:10: Error: Unexpected indent` is matched at `foo.gd`. It yields range (9,0)-(9,37) with message `Unexpected indent`, and the log entry names `foo.gd` and line 9. |
| Lint.EmptyMessageScenario | src/extension.ts:25-37 | `foo.gd:3: Error:`, as trimming leaves a report with nothing after the marker, logs one entry and then throws. |
| Lint.EmptyMessageAborts | src/extension.ts:155-178 | Output starting with that line ends the run there with no diagnostic, whatever follows. |
| Lint.UsageErrorUnrecognised | src/extension.ts:163-166 | `gdlint: error: unrecognized arguments` matches none of the three patterns. |
| Lint.UsageErrorScenario | src/extension.ts:167-174 | That line yields the unlocated Error diagnostic with the whole line as message, from any state. |
| Documents.Lintable | src/extension.ts:131 | Only documents with URI scheme `file` and language `gdscript` are linted. Extension.Linter.LintDocument states both cases. |
| Debounce.Step | src/extension.ts:191-202 | The timer firing leaves nothing pending. An ignored event keeps what was pending. An event that requests a document leaves exactly that document pending. |
| Debounce.EventKinds | src/extension.ts:197-202 | Every event is the timer, an ignored event, or a request for exactly one document, and these cases do not overlap, so `Step`'s three cases fix it. |
| Debounce.IgnoredEventsKeep | src/extension.ts:197-202 | Events with no editor and changes to dirty documents leave the pending timer alone and lint nothing. |
| Debounce.LastTriggerWins | src/extension.ts:191-194 | After an event requesting a document, followed only by ignored events, the pending timer is the one for that document. |
| Debounce.NothingLintedBeforeFiring | src/extension.ts:193 | Nothing is linted until the timer fires. |
| Debounce.BurstLintsOnce | src/extension.ts:191-202 | A burst of events followed by the timer firing lints exactly once, the document of the last request, and leaves nothing pending. |
| Host.RegExp.Exec | src/extension.ts:25 | `exec` gives the match and the new `lastIndex` that `Patterns.Exec` gives from the old one. |
| Host.OutputChannel.Append | src/extension.ts:32 | `append` adds its text at the end of the channel. |
| Host.DiagnosticCollection.Set | src/extension.ts:178 | `set` replaces the document's entry and keeps every other document's entry. |
| Extension.Linter.constructor | src/extension.ts:6-14 | At module load every pattern has its own object with `lastIndex` 0, and the severity name is fixed. |
| Extension.Linter.ScanLineForGeneralError | src/extension.ts:19-39 | Returns true exactly when the general pattern matches from its `lastIndex`. Then it logs one entry and pushes the general diagnostic, or reports that the constructor threw when the diagnostic cannot be built. Otherwise it changes nothing but the `lastIndex`. |
| Extension.Linter.ScanLineForTokenError | src/extension.ts:42-66 | Runs the file-name pattern, then the token pattern. Returns true exactly when the latter matches; then it logs the entry with the file name and pushes the token diagnostic. |
| Extension.Linter.ScanLineForUnexpectedTokenError | src/extension.ts:69-93 | The same with the unexpected-token pattern and message group 4. |
| Extension.Linter.LintLine | src/extension.ts:158-175 | One round of the `forEach` adds exactly what `Lint.ScanLine` gives the line from the reset state: the diagnostic, the log, the new state, and whether it threw. |
| Extension.Linter.LintNext | src/extension.ts:158-176 | A run over the first i lines that did not throw becomes the run over the first i+1. |
| Extension.Linter.LintLines | src/extension.ts:155-176 | The loop gives exactly `Lint.ScanLines`: its diagnostics, whether it threw, its log appended to the channel, and its final regular-expression state. |
| Extension.Linter.LintDocument | src/extension.ts:125-180 | A document that is not a GDScript file gets [] and nothing changes. Otherwise the run's log is appended and its state kept. When a constructor threw, nothing is returned and the collection is unchanged; otherwise the document's entry is replaced by the diagnostics, which are also returned. |
| Extension.Activation.constructor | src/extension.ts:187-188 | `activate` starts with an empty channel, an empty collection and no pending timer. |
| Extension.Activation.LintOnChange | src/extension.ts:191-194 | `lintOnChange` cancels any pending timer and leaves exactly one, for the given document. |
| Extension.Activation.OnDidChangeActiveTextEditor | src/extension.ts:197-199 | The editor listener steps the debounce as `Debounce.Step` does, so an event with no editor is ignored. |
| Extension.Activation.OnDidChangeTextDocument | src/extension.ts:200-202 | The change listener steps the debounce as `Debounce.Step` does, so a dirty document is ignored. |
| Extension.Activation.TimerFires | src/extension.ts:193 | Firing lints the pending document as `LintDocument` does, from the current regular-expression state, with the reset chosen by `resetsToken` (false as written), and leaves nothing pending. |

## Left out

- `formatDocument`, the formatting provider and `deactivate` (src/extension.ts:96-123, 203-209) are not part of this model. They are a subprocess call whose output becomes a whole-document edit.
- The `gdlint` subprocess (src/extension.ts:135-145) is left out. Its command line is built from the configured path and `doc.fileName`, and its working folder from the workspace. The output it produced is a parameter (`Lint.Output`). A stream that was not captured is `None`.
- `console.log` calls, the extension lookup and the version message (src/extension.ts:148-149, 183-185) are left out, as they only print.
- The unused `code` argument of the three helpers is left out.
- Timers are left out: the 300 ms delay, `setTimeout` and `clearTimeout`. The pending timer is the document it would lint. After firing the model forgets it, while the code's `timeout` keeps the spent handle; clearing a spent handle does nothing.
- Concurrency between a lint and the events around it is not modelled. Events and the timer are taken one at a time.
- Extension.Linter.LintDocument: the diagnostics a document gets depend on the `lastIndex` values left by earlier lints. The model keeps those values across calls, as the code's module-level regular expressions do, but it does not model two extension instances sharing them.
- Lint.GeneralLineDiagnostic: the line must have the shape `<prefix><word>.gd:<N>: Error: <msg>`, with one space on each side of `Error:`. The prefix must be empty or end in a non-word character, and it must hold no `.gd:`. Other lines the pattern accepts are modelled by `Patterns.GeneralAt`: the variants without those spaces, a prefix ending in a word character (where `\w+` starts earlier), and a prefix that already holds `.gd:`. They have no lemma of their own, because each needs its own reading of the groups.
- Lint.TokenLineDiagnostic: the line must be exactly a token line and must not contain `Error:`. That is a simple way to rule out the general pattern winning.
- Lint.UnexpectedLineDiagnostic: the rest after `Unexpected token` must hold no `:`, and the line must contain neither `Error:` nor ` at line `. Other lines can still match, with a different split of groups, and are modelled by `Patterns.UnexpectedAt`.
- The range's end column: `line.length` counts UTF-16 code units in JavaScript, while the model counts characters. The two differ only for characters outside the Basic Multilingual Plane.
- Line and column numbers: `parseInt` is exact on naturals here. JavaScript's numbers lose precision above 2^53.
- Diagnostics.SeverityNamed: a configured name such as `"0"` reaches the enumeration's reverse mapping in JavaScript and gives a string. The model treats every name other than the four member names as undefined.
- The exceptions thrown by VS Code's constructors are modelled by where they stop `lintDocument`, not as JavaScript values: their type and text, and how the timer callback reports them, are left out.
- The full JavaScript regular-expression engine is not modelled. Only the four patterns are, each as its own recogniser. Empty matches cannot occur for them, so the `lastIndex` advance after an empty match is not needed.

## Findings

| source | as written | input that shows it | evidently intended | confidence | as-written member | corrected member |
|---|---|---|---|---|---|---|
| src/extension.ts:159-161 | Before each line only the file-name, general and unexpected-token patterns get `lastIndex = 0`. The token pattern `matchRegexToken` keeps the end of its last match, across lines and across calls to `lintDocument`. | gdlint output holding `Unexpected character at line 3, column 5.` on two lines gives one diagnostic instead of two. Linting a document whose output is that one line a second time gives no diagnostic. | Reset all four patterns before each line, so every line is read on its own and re-linting gives the same result. | not executed | Lint.RepeatedTokenLineAsWritten | Lint.RepeatedTokenLineCorrected |

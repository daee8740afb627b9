/**
 * The JavaScript and VS Code objects the extension changes in place: a
 * global regular expression with its `lastIndex`, the output channel it logs
 * to and the diagnostic collection it publishes into.
 */
module Host {
  import opened Wrappers
  import opened Patterns
  import opened Diagnostics
  import opened Documents

  /** A regular expression literal with the `g` flag: a fixed pattern and the
      `lastIndex` that `exec` reads and writes. */
  class RegExp {
    const pattern: Pattern
    var lastIndex: nat

    constructor (p: Pattern)
      ensures pattern == p && lastIndex == 0
    {
      pattern := p;
      lastIndex := 0;
    }

    /** `exec(s)`: fails and resets `lastIndex` when it is past the end,
        otherwise finds the leftmost match from `lastIndex` on, and leaves
        `lastIndex` at its end (or at 0 when there is none). */
    method Exec(s: string) returns (m: Option<Match>)
      modifies this
      ensures (m, lastIndex) == Patterns.Exec(pattern, s, old(lastIndex))
      ensures m.Some? ==> old(lastIndex) <= m.value.index && lastIndex == m.value.end
      ensures m.None? ==> lastIndex == 0
    {
      if lastIndex > |s| {
        m := None;
        lastIndex := 0;
      } else {
        m := Search(pattern, s, lastIndex);
        lastIndex := if m.Some? then m.value.end else 0;
      }
    }
  }

  /** `vscode.OutputChannel`: the texts appended to it, in order. */
  class OutputChannel {
    var text: seq<string>

    constructor ()
      ensures text == []
    {
      text := [];
    }

    method Append(s: string)
      modifies this
      ensures text == old(text) + [s]
    {
      text := text + [s];
    }
  }

  /** `vscode.DiagnosticCollection`: the diagnostics published for each document. */
  class DiagnosticCollection {
    var entries: map<Uri, seq<Diagnostic>>

    constructor ()
      ensures entries == map[]
    {
      entries := map[];
    }

    /** `set(uri, diagnostics)`: replaces what was published for `uri` and
        leaves every other document's entry alone. */
    method Set(uri: Uri, diagnostics: seq<Diagnostic>)
      modifies this
      ensures entries == old(entries)[uri := diagnostics]
      ensures forall u :: u in old(entries) && u != uri ==> u in entries && entries[u] == old(entries)[u]
    {
      entries := entries[uri := diagnostics];
    }
  }
}

/**
 * The four regular expressions of the extension (src/extension.ts:6-10) as
 * recognisers over strings, and `RegExp.prototype.exec` for a regular
 * expression with the `g` flag (the search starts at `lastIndex`).
 *
 *   GeneralError     /(\w+\.gd):(\d+):\s?Error:\s?(.+)?/g
 *   TokenError       /(.+) at line (\d+), column (\d+)\./gm
 *   UnexpectedToken  /Token(.+):(\d+):(\d+): Unexpected token(.+)/g
 *   TokenFile        /['|"]?(.+\.gd):['|"]?/g
 *
 * An attempt at a fixed start position has at most one outcome, and the
 * functions below compute it the way a backtracking matcher does: a greedy
 * `\w+` or `\d+` is always followed by a character outside its class, so only
 * its longest run can succeed; a greedy `(.+)` followed by more pattern
 * takes the LONGEST prefix after which the rest matches (the backtracking
 * functions try end positions from the furthest down). Every recogniser
 * reads the whole subject string `s` from a position; the captures are only
 * cut out of `s` once the attempt has succeeded. The `m` flag of TokenError
 * only changes `^` and `$`, which the pattern does not use.
 */
module Patterns {
  import opened Wrappers
  import opened Text

  datatype Pattern = GeneralError | TokenError | UnexpectedToken | TokenFile

  function GroupCount(p: Pattern): nat {
    match p
    case GeneralError => 3
    case TokenError => 3
    case UnexpectedToken => 4
    case TokenFile => 1
  }

  /** The characters `s[start..end]` a group took. Captures are kept as
      positions; `Captured` cuts the text out. */
  datatype Group = Group(start: nat, end: nat)

  function Captured(s: string, g: Group): string
    requires g.start <= g.end <= |s|
  {
    s[g.start..g.end]
  }

  /** A successful attempt: the position where it ended and the capture
      array, `groups[0]` being the whole match and `groups[k]` the k-th group
      (`None` for a group that did not take part). */
  datatype Found = Found(end: nat, groups: seq<Option<Group>>)

  /** A group that took part and lies inside `s`. */
  predicate Spans(s: string, g: Option<Group>) {
    g.Some? && g.value.start <= g.value.end <= |s|
  }

  /** `g` is a non-empty run of digits of `s`. */
  predicate DigitRun(s: string, g: Group) {
    g.start < g.end <= |s| && forall j :: g.start <= j < g.end ==> IsDigit(s[j])
  }

  predicate DigitGroup(s: string, g: Option<Group>) {
    g.Some? && DigitRun(s, g.value)
  }

  /** A group that took part, took at least one character and lies inside
      `s`: what a `(.+)` group holds once it matched. */
  predicate Takes(s: string, g: Option<Group>) {
    g.Some? && g.value.start < g.value.end <= |s|
  }

  /** What every match of `p` on `s` from `i` looks like: it consumes
      `s[i..end]`, has one entry per group, and fills the groups every match
      fills, with digits where the pattern reads `(\d+)` and at least one
      character where it reads `(.+)`. */
  predicate WellFormed(p: Pattern, s: string, i: nat, f: Found) {
    && i <= f.end <= |s|
    && |f.groups| == GroupCount(p) + 1
    && f.groups[0] == Some(Group(i, f.end))
    && Spans(s, f.groups[1])
    && match p
       case GeneralError => DigitGroup(s, f.groups[2]) && (f.groups[3].None? || Takes(s, f.groups[3]))
       case TokenError => Takes(s, f.groups[1]) && DigitGroup(s, f.groups[2]) && DigitGroup(s, f.groups[3])
       case UnexpectedToken => Takes(s, f.groups[1]) && DigitGroup(s, f.groups[2]) && DigitGroup(s, f.groups[3]) && Takes(s, f.groups[4])
       case TokenFile => Takes(s, f.groups[1]) && f.groups[1].value.start + 3 < f.groups[1].value.end
                         && HasAt(s, f.groups[1].value.end - 3, ".gd")
  }

  /** The text of a digit group is a non-empty string of digits. */
  lemma DigitRunText(s: string, g: Group)
    requires DigitRun(s, g)
    ensures |Captured(s, g)| > 0 && AllIn(Captured(s, g), Digit)
  {
    var t := Captured(s, g);
    forall j | 0 <= j < |t| ensures IsDigit(t[j]) { assert t[j] == s[g.start + j]; }
  }

  /** `(\d+)` at position `i`: the longest run of digits, which must not be empty. */
  function Number(s: string, i: nat): (r: Option<Group>)
    requires i <= |s|
    ensures r.Some? ==> r.value.start == i && DigitRun(s, r.value)
    ensures r.Some? ==> r.value.end == |s| || !IsDigit(s[r.value.end])
  {
    var d := SpanEnd(s, i, Digit);
    if d == i then None else Some(Group(i, d))
  }

  /** An optional `\s?` at position `i`: one whitespace character if there is one. */
  function OptSpace(s: string, i: nat): (n: nat)
    requires i <= |s|
    ensures n <= 1 && i + n <= |s|
  {
    if i < |s| && IsSpace(s[i]) then 1 else 0
  }

  /** `\s?Error:\s?(.+)?` at position `i`. The optional `\s` before `Error:`
      is taken when present; leaving it out cannot help, since `Error:` does
      not start with whitespace. The closing `(.+)?` takes the rest of the
      line, or nothing. Returns the message group; the match ends where the
      group does. */
  function ErrorMessage(s: string, i: nat): (r: Option<Group>)
    requires i <= |s|
    ensures r.Some? ==> i + 6 <= r.value.start <= r.value.end <= |s|
  {
    var i1 := i + OptSpace(s, i);
    if !HasAt(s, i1, "Error:") then None
    else
      var i2 := i1 + 6;
      var i3 := i2 + OptSpace(s, i2);
      Some(Group(i3, SpanEnd(s, i3, NonTerminator)))
  }

  /** `\.gd:(\d+):\s?Error:\s?(.+)?` at position `i`: the line number group
      and the message group. */
  function GeneralTail(s: string, i: nat): (r: Option<(Group, Group)>)
    requires i <= |s|
    ensures r.Some? ==> && i + 4 == r.value.0.start && DigitRun(s, r.value.0)
                        && r.value.0.end < r.value.1.start <= r.value.1.end <= |s|
  {
    if !HasAt(s, i, ".gd:") then None
    else
      match Number(s, i + 4)
      case None => None
      case Some(n) =>
        if !HasAt(s, n.end, ":") then None
        else
          match ErrorMessage(s, n.end + 1)
          case None => None
          case Some(m) => Some((n, m))
  }

  /** The match of GeneralError from `i` whose `\w+` ended at `w`. */
  function GeneralFound(s: string, i: nat, w: nat, n: Group, m: Group): (f: Found)
    requires i < w && w + 4 == n.start && DigitRun(s, n) && n.end < m.start <= m.end <= |s|
    ensures WellFormed(GeneralError, s, i, f)
  {
    Found(m.end, [Some(Group(i, m.end)), Some(Group(i, w + 3)), Some(n),
                  if m.start == m.end then None else Some(m)])
  }

  /** GeneralError attempted at position `i`: `\w+` takes its whole run. */
  function GeneralAt(s: string, i: nat): (r: Option<Found>)
    requires i <= |s|
    ensures r.Some? ==> WellFormed(GeneralError, s, i, r.value)
  {
    var w := SpanEnd(s, i, Word);
    if w == i then None
    else
      match GeneralTail(s, w)
      case None => None
      case Some((n, m)) => Some(GeneralFound(s, i, w, n, m))
  }

  /** The furthest position in `(lo, p]` that satisfies `ok`: where a greedy
      `.+` that starts at `lo` and may run to `p` ends when the pattern after
      it must match there (the matcher backtracks from `p` down). */
  function LastWhere(ok: nat -> bool, lo: nat, p: nat): (r: Option<nat>)
    requires lo <= p
    ensures r.Some? ==> lo < r.value <= p && ok(r.value)
    ensures r.Some? ==> forall k :: r.value < k <= p ==> !ok(k)
    ensures r.None? ==> forall k :: lo < k <= p ==> !ok(k)
    decreases p
  {
    if p == lo then None else if ok(p) then Some(p) else LastWhere(ok, lo, p - 1)
  }

  /** The greedy end is `q` when `q` satisfies `ok` and nothing after it up to `p` does. */
  lemma LastWhereIs(ok: nat -> bool, lo: nat, q: nat, p: nat)
    requires lo < q <= p && ok(q)
    requires forall k :: q < k <= p ==> !ok(k)
    ensures LastWhere(ok, lo, p) == Some(q)
  {
  }

  /** ` at line (\d+), column (\d+)\.` at position `p`: the line and column
      groups; the match ends one past the column. */
  function TokenTail(s: string, p: nat): (r: Option<(Group, Group)>)
    requires p <= |s|
    ensures r.Some? ==> && p < r.value.0.start && DigitRun(s, r.value.0)
                        && r.value.0.end < r.value.1.start && DigitRun(s, r.value.1)
                        && r.value.1.end < |s|
  {
    if !HasAt(s, p, " at line ") then None
    else
      match Number(s, p + 9)
      case None => None
      case Some(l) =>
        if !HasAt(s, l.end, ", column ") then None
        else
          match Number(s, l.end + 9)
          case None => None
          case Some(c) => if !HasAt(s, c.end, ".") then None else Some((l, c))
  }

  /** The match of TokenError from `i` whose leading group ended at `p`. */
  function TokenFound(s: string, i: nat, p: nat, l: Group, c: Group): (f: Found)
    requires i < p < l.start && DigitRun(s, l) && l.end < c.start && DigitRun(s, c) && c.end < |s|
    ensures WellFormed(TokenError, s, i, f)
  {
    Found(c.end + 1, [Some(Group(i, c.end + 1)), Some(Group(i, p)), Some(l), Some(c)])
  }

  /** Where TokenError's tail matches: the ends its leading `(.+)` may take. */
  function TokenEnds(s: string): nat -> bool {
    (p: nat) => p <= |s| && TokenTail(s, p).Some?
  }

  /** TokenError attempted at position `i`: `(.+)` cannot run past a line
      terminator, and it takes the furthest end after which the tail matches. */
  function TokenAt(s: string, i: nat): (r: Option<Found>)
    requires i <= |s|
    ensures r.Some? ==> WellFormed(TokenError, s, i, r.value)
  {
    match LastWhere(TokenEnds(s), i, SpanEnd(s, i, NonTerminator))
    case None => None
    case Some(p) =>
      var (l, c) := TokenTail(s, p).value;
      Some(TokenFound(s, i, p, l, c))
  }

  /** `:(\d+):(\d+): Unexpected token(.+)` at position `p`; the closing
      `(.+)` takes the rest of the line and needs at least one character. */
  function UnexpectedTail(s: string, p: nat): (r: Option<(Group, Group, Group)>)
    requires p <= |s|
    ensures r.Some? ==> && p < r.value.0.start && DigitRun(s, r.value.0)
                        && r.value.0.end < r.value.1.start && DigitRun(s, r.value.1)
                        && r.value.1.end < r.value.2.start < r.value.2.end <= |s|
  {
    if !HasAt(s, p, ":") then None
    else
      match Number(s, p + 1)
      case None => None
      case Some(l) =>
        if !HasAt(s, l.end, ":") then None
        else
          match Number(s, l.end + 1)
          case None => None
          case Some(c) =>
            if !HasAt(s, c.end, ": Unexpected token") then None
            else
              var e := c.end + 18;
              var n := SpanEnd(s, e, NonTerminator);
              if n == e then None else Some((l, c, Group(e, n)))
  }

  /** The match of UnexpectedToken from `i` whose group after `Token` ended at `p`. */
  function UnexpectedFound(s: string, i: nat, p: nat, l: Group, c: Group, y: Group): (f: Found)
    requires i + 5 < p < l.start && DigitRun(s, l) && l.end < c.start && DigitRun(s, c)
    requires c.end < y.start < y.end <= |s|
    ensures WellFormed(UnexpectedToken, s, i, f)
  {
    Found(y.end, [Some(Group(i, y.end)), Some(Group(i + 5, p)), Some(l), Some(c), Some(y)])
  }

  /** Where UnexpectedToken's tail matches. */
  function UnexpectedEnds(s: string): nat -> bool {
    (p: nat) => p <= |s| && UnexpectedTail(s, p).Some?
  }

  /** UnexpectedToken attempted at position `i`: the `(.+)` after `Token`
      (which starts at `i + 5`) takes the furthest end after which the tail
      matches. */
  function UnexpectedAt(s: string, i: nat): (r: Option<Found>)
    requires i <= |s|
    ensures r.Some? ==> WellFormed(UnexpectedToken, s, i, r.value)
  {
    if !HasAt(s, i, "Token") then None
    else
      match LastWhere(UnexpectedEnds(s), i + 5, SpanEnd(s, i + 5, NonTerminator))
      case None => None
      case Some(p) =>
        var (l, c, y) := UnexpectedTail(s, p).value;
        Some(UnexpectedFound(s, i, p, l, c, y))
  }

  /** One of `'`, `|`, `"`: the class `['|"]`. */
  predicate IsQuote(c: char) {
    c == '\'' || c == '|' || c == '"'
  }

  /** Where `\.gd:` follows: the ends the `.+` of TokenFile may take. */
  function FileEnds(s: string): nat -> bool {
    (p: nat) => HasAt(s, p, ".gd:")
  }

  /** The group `(.+\.gd)` of TokenFile starting at `a`: its `.+` takes the
      furthest end with `.gd:` after it; then the optional closing quote is
      taken when present. Returns where the group and the match end. */
  function FileGroup(s: string, a: nat): (r: Option<(nat, nat)>)
    requires a <= |s|
    ensures r.Some? ==> a + 3 < r.value.0 < r.value.1 <= |s| && HasAt(s, r.value.0 - 3, ".gd")
  {
    match LastWhere(FileEnds(s), a, SpanEnd(s, a, NonTerminator))
    case None => None
    case Some(p) =>
      HasAtPrefix(s, p, ".gd:", 3);
      assert ".gd:"[..3] == ".gd";
      var closing := if p + 4 < |s| && IsQuote(s[p + 4]) then 1 else 0;
      Some((p + 3, p + 4 + closing))
  }

  /** The match of TokenFile from `i` whose group starts at `a`. */
  function FileFound(s: string, i: nat, a: nat, ends: (nat, nat)): (f: Found)
    requires i <= a && a + 3 < ends.0 <= ends.1 <= |s| && HasAt(s, ends.0 - 3, ".gd")
    ensures WellFormed(TokenFile, s, i, f)
  {
    Found(ends.1, [Some(Group(i, ends.1)), Some(Group(a, ends.0))])
  }

  /** TokenFile attempted at position `i`: first with the optional opening
      quote taken (when there is one), then without it. */
  function FileAt(s: string, i: nat): (r: Option<Found>)
    requires i <= |s|
    ensures r.Some? ==> WellFormed(TokenFile, s, i, r.value)
  {
    var quoted := if i < |s| && IsQuote(s[i]) then FileGroup(s, i + 1) else None;
    if quoted.Some? then Some(FileFound(s, i, i + 1, quoted.value))
    else
      var bare := FileGroup(s, i);
      if bare.Some? then Some(FileFound(s, i, i, bare.value)) else None
  }

  /** Pattern `p` attempted at position `i` of `s`. */
  function AtStart(p: Pattern, s: string, i: nat): Option<Found>
    requires i <= |s|
  {
    match p
    case GeneralError => GeneralAt(s, i)
    case TokenError => TokenAt(s, i)
    case UnexpectedToken => UnexpectedAt(s, i)
    case TokenFile => FileAt(s, i)
  }

  /** Every successful attempt is well formed. */
  lemma AtStartWellFormed(p: Pattern, s: string, i: nat)
    requires i <= |s|
    ensures AtStart(p, s, i).Some? ==> WellFormed(p, s, i, AtStart(p, s, i).value)
  {
  }

  /** What `exec` returns on success: where the match starts, where it ends
      and its captures. */
  datatype Match = Match(index: nat, end: nat, groups: seq<Option<Group>>)

  /** No attempt of `p` at a position in `[lo, hi)` of `s` succeeds. */
  predicate NoMatchIn(p: Pattern, s: string, lo: nat, hi: nat) {
    forall k :: lo <= k < hi && k <= |s| ==> AtStart(p, s, k).None?
  }

  /** The leftmost match of `p` in `s` that starts at `from` or later. */
  function Search(p: Pattern, s: string, from: nat): (r: Option<Match>)
    requires from <= |s|
    ensures r.Some? ==> from <= r.value.index <= r.value.end <= |s|
    ensures r.Some? ==> var f := AtStart(p, s, r.value.index);
                        f.Some? && r.value.end == f.value.end && r.value.groups == f.value.groups
    ensures r.Some? ==> WellFormed(p, s, r.value.index, Found(r.value.end, r.value.groups))
    ensures r.Some? ==> NoMatchIn(p, s, from, r.value.index)
    ensures r.None? ==> NoMatchIn(p, s, from, |s| + 1)
    decreases |s| - from
  {
    AtStartWellFormed(p, s, from);
    match AtStart(p, s, from)
    case Some(f) => Some(Match(from, f.end, f.groups))
    case None => if from == |s| then None else Search(p, s, from + 1)
  }

  /** `exec` on a regular expression with the `g` flag whose `lastIndex` is
      `lastIndex`: the match (if any) and the new `lastIndex`. A `lastIndex`
      past the end fails at once; every failure resets `lastIndex` to 0 and a
      success sets it to the end of the match. */
  function Exec(p: Pattern, s: string, lastIndex: nat): (r: (Option<Match>, nat))
    ensures r.0.Some? ==> lastIndex <= r.0.value.index && r.1 == r.0.value.end
    ensures r.0.None? ==> r.1 == 0
    ensures r.0.Some? ==> WellFormed(p, s, r.0.value.index, Found(r.0.value.end, r.0.value.groups))
    ensures lastIndex <= |s| ==> r.0 == Search(p, s, lastIndex)
    ensures lastIndex > |s| ==> r.0.None?
  {
    if lastIndex > |s| then (None, 0)
    else
      var m := Search(p, s, lastIndex);
      (m, if m.Some? then m.value.end else 0)
  }
}

/**
 * What the recognisers of module Patterns return on lines of their own
 * shape, and which literal text each of them needs to succeed at all.
 */
module Shapes {
  import opened Wrappers
  import opened Text
  import opened Patterns

  /** A greedy run of class `k` from `i` ends at `e` when everything in
      between is in the class and the character at `e` is not. */
  lemma {:induction false} SpanEndStops(s: string, i: nat, e: nat, k: CharClass)
    requires i <= e <= |s|
    requires forall j :: i <= j < e ==> InClass(s[j], k)
    requires e == |s| || !InClass(s[e], k)
    ensures SpanEnd(s, i, k) == e
    decreases e - i
  {
    if i < e { SpanEndStops(s, i + 1, e, k); }
  }

  lemma NumberAt(s: string, a: nat, e: nat)
    requires a < e <= |s|
    requires forall j :: a <= j < e ==> IsDigit(s[j])
    requires e == |s| || !IsDigit(s[e])
    ensures Number(s, a) == Some(Group(a, e))
  {
    SpanEndStops(s, a, e, Digit);
  }

  /** `\s?Error:\s?(.+)?` on ` Error: ` followed by a message that runs to the end. */
  lemma ErrorMessageAt(s: string, i: nat)
    requires i + 8 <= |s| && s[i] == ' ' && HasAt(s, i + 1, "Error:") && s[i + 7] == ' '
    requires forall j :: i + 8 <= j < |s| ==> !IsLineTerminator(s[j])
    ensures ErrorMessage(s, i) == Some(Group(i + 8, |s|))
  {
    assert OptSpace(s, i) == 1;
    assert OptSpace(s, i + 7) == 1;
    SpanEndStops(s, i + 8, |s|, NonTerminator);
  }

  // ---------------------------------------------------------------------
  // GeneralError

  /** A line of the shape GeneralError describes: a base name, `.gd:`, the
      line number, `: Error: ` and the message. */
  function GeneralLine(word: string, digits: string, msg: string): string {
    word + ".gd:" + digits + ": Error: " + msg
  }

  /** What the message group holds: `(.+)?` is undefined when it takes nothing. */
  function OptionalGroup(msg: string): Option<string> {
    if msg == [] then None else Some(msg)
  }

  /** The characters of a general line, class by class. */
  lemma GeneralLineChars(word: string, digits: string, msg: string)
    requires AllIn(word, Word) && AllIn(digits, Digit) && AllIn(msg, NonTerminator)
    ensures var t := GeneralLine(word, digits, msg);
            var w := |word|;
            var e := w + 4 + |digits|;
            && |t| == e + 9 + |msg|
            && (forall j :: 0 <= j < w ==> IsWord(t[j])) && t[w] == '.'
            && (forall j :: w + 4 <= j < e ==> IsDigit(t[j])) && t[e] == ':' && t[e + 1] == ' ' && t[e + 8] == ' '
            && (forall j :: e + 9 <= j < |t| ==> !IsLineTerminator(t[j]))
  {
    var t := GeneralLine(word, digits, msg);
    var w := |word|;
    var e := w + 4 + |digits|;
    forall j | 0 <= j < w ensures IsWord(t[j]) { assert t[j] == word[j]; }
    forall j | w + 4 <= j < e ensures IsDigit(t[j]) { assert t[j] == digits[j - w - 4]; }
    forall j | e + 9 <= j < |t| ensures !IsLineTerminator(t[j]) { assert t[j] == msg[j - e - 9]; }
  }

  /** The literals of a general line. */
  lemma GeneralLineLiterals(word: string, digits: string, msg: string)
    ensures var t := GeneralLine(word, digits, msg);
            var w := |word|;
            var e := w + 4 + |digits|;
            HasAt(t, w, ".gd:") && HasAt(t, e, ":") && HasAt(t, e + 2, "Error:")
  {
    var t := GeneralLine(word, digits, msg);
    var w := |word|;
    var e := w + 4 + |digits|;
    assert t[w..w + 4] == ".gd:";
    HasAtSlice(t, w, ".gd:");
    assert t[e..e + 1] == ":";
    HasAtSlice(t, e, ":");
    assert t[e + 2..e + 8] == "Error:";
    HasAtSlice(t, e + 2, "Error:");
  }

  /** The texts of the groups of a general line. */
  lemma GeneralLineTexts(word: string, digits: string, msg: string)
    ensures var t := GeneralLine(word, digits, msg);
            var w := |word|;
            var e := w + 4 + |digits|;
            && e + 9 <= |t|
            && Captured(t, Group(0, w + 3)) == word + ".gd" && Captured(t, Group(w + 4, e)) == digits
            && Captured(t, Group(e + 9, |t|)) == msg
  {
  }

  /** What a general line looks like from position `i`, position by
      position: a run of word characters from `i` to `w`, `.gd:`, a run of
      digits ending at `e`, `: Error: ` and a message without line
      terminators that runs to the end. */
  predicate GeneralShape(s: string, i: nat, w: nat, e: nat) {
    && i < w && w + 4 < e && e + 9 <= |s|
    && (forall j :: i <= j < w ==> IsWord(s[j])) && s[w] == '.' && HasAt(s, w, ".gd:")
    && (forall j :: w + 4 <= j < e ==> IsDigit(s[j]))
    && s[e] == ':' && HasAt(s, e, ":") && s[e + 1] == ' ' && HasAt(s, e + 2, "Error:") && s[e + 8] == ' '
    && (forall j :: e + 9 <= j < |s| ==> !IsLineTerminator(s[j]))
  }

  /** A line built from a base name, a line number and a message has the
      general shape, and its groups hold the base name with `.gd`, the digits
      of the line number and the message. */
  lemma GeneralLineShape(word: string, digits: string, msg: string)
    requires |word| > 0 && AllIn(word, Word)
    requires |digits| > 0 && AllIn(digits, Digit) && AllIn(msg, NonTerminator)
    ensures var t := GeneralLine(word, digits, msg);
            var w := |word|;
            var e := w + 4 + |digits|;
            && GeneralShape(t, 0, w, e)
            && Captured(t, Group(0, w + 3)) == word + ".gd" && Captured(t, Group(w + 4, e)) == digits
            && Captured(t, Group(e + 9, |t|)) == msg
  {
    GeneralLineChars(word, digits, msg);
    GeneralLineLiterals(word, digits, msg);
    GeneralLineTexts(word, digits, msg);
  }

  /** A literal found in `t` is found in `prefix + t`, shifted by the prefix. */
  lemma HasAtShift(prefix: string, t: string, k: nat, lit: string)
    requires HasAt(t, k, lit)
    ensures HasAt(prefix + t, |prefix| + k, lit)
  {
    var s := prefix + t;
    forall j | 0 <= j < |lit| ensures s[|prefix| + k + j] == lit[j] { assert s[|prefix| + k + j] == t[k + j]; }
  }

  /** The general shape survives putting a prefix, such as the directory
      part of a path, in front of the line. */
  lemma GeneralShapeShift(prefix: string, t: string, w: nat, e: nat)
    requires GeneralShape(t, 0, w, e)
    ensures GeneralShape(prefix + t, |prefix|, |prefix| + w, |prefix| + e)
  {
    var s := prefix + t;
    var n := |prefix|;
    forall j | n <= j < |s| ensures s[j] == t[j - n] { }
    HasAtShift(prefix, t, w, ".gd:");
    HasAtShift(prefix, t, e, ":");
    HasAtShift(prefix, t, e + 2, "Error:");
  }

  /** A line holding `<word>.gd:<N>: Error: <msg>` after a prefix has the
      general shape from the end of the prefix on, and its groups hold the
      base name with `.gd`, the digits of the line number and the message. */
  lemma PrefixedGeneralLineShape(prefix: string, word: string, digits: string, msg: string)
    requires |word| > 0 && AllIn(word, Word)
    requires |digits| > 0 && AllIn(digits, Digit) && AllIn(msg, NonTerminator)
    ensures var s := prefix + GeneralLine(word, digits, msg);
            var n := |prefix|;
            var w := n + |word|;
            var e := w + 4 + |digits|;
            && GeneralShape(s, n, w, e)
            && Captured(s, Group(n, w + 3)) == word + ".gd" && Captured(s, Group(w + 4, e)) == digits
            && Captured(s, Group(e + 9, |s|)) == msg
  {
    var t := GeneralLine(word, digits, msg);
    var s := prefix + t;
    var n := |prefix|;
    var w := |word|;
    var e := w + 4 + |digits|;
    GeneralLineShape(word, digits, msg);
    GeneralShapeShift(prefix, t, w, e);
    CapturedShift(prefix, t, Group(0, w + 3));
    CapturedShift(prefix, t, Group(w + 4, e));
    CapturedShift(prefix, t, Group(e + 9, |t|));
  }

  /** A group of `t` read in `prefix + t`, shifted by the prefix. */
  lemma CapturedShift(prefix: string, t: string, g: Group)
    requires g.start <= g.end <= |t|
    ensures Captured(prefix + t, Group(|prefix| + g.start, |prefix| + g.end)) == Captured(t, g)
  {
    assert (prefix + t)[|prefix| + g.start..|prefix| + g.end] == t[g.start..g.end];
  }

  /** The part of GeneralError after `\w+`. */
  lemma GeneralTailAt(s: string, i: nat, w: nat, e: nat)
    requires GeneralShape(s, i, w, e)
    ensures GeneralTail(s, w) == Some((Group(w + 4, e), Group(e + 9, |s|)))
  {
    NumberAt(s, w + 4, e);
    ErrorMessageAt(s, e + 1);
  }

  /** GeneralError attempted where a general line starts: the match runs to
      the end of the line. */
  lemma GeneralAtShape(s: string, i: nat, w: nat, e: nat)
    requires GeneralShape(s, i, w, e)
    ensures GeneralAt(s, i) == Some(Found(|s|, [Some(Group(i, |s|)), Some(Group(i, w + 3)), Some(Group(w + 4, e)),
                                                 if e + 9 == |s| then None else Some(Group(e + 9, |s|))]))
  {
    GeneralTailAt(s, i, w, e);
    SpanEndStops(s, i, w, Word);
  }

  /** GeneralError attempted at a position `k` before a general line that
      starts at `i` fails when the prefix `s[..i]` ends in a character that
      is not a word character and holds no `.gd:`: the `\w+` from `k` stops
      inside the prefix, where no `.gd:` follows. */
  lemma GeneralNotBefore(s: string, i: nat, w: nat, e: nat, k: nat)
    requires GeneralShape(s, i, w, e) && k < i && !IsWord(s[i - 1]) && !Contains(s[..i], ".gd:")
    ensures GeneralAt(s, k).None?
  {
    var v := SpanEnd(s, k, Word);
    if v > k {
      assert v < i;
      if v + 4 <= i {
        MarkerNotInPrefix(s, i, v);
      } else if v + 1 == i {
        MarkerNotAtBaseName(s, i, w, e, v);
      } else {
        assert s[v + (i - 1 - v)] != ".gd:"[i - 1 - v];
      }
    }
  }

  /** A `.gd:` inside the prefix would be a `.gd:` of the prefix. */
  lemma MarkerNotInPrefix(s: string, i: nat, v: nat)
    requires v + 4 <= i <= |s| && !Contains(s[..i], ".gd:")
    ensures !HasAt(s, v, ".gd:")
  {
    var t := s[..i];
    assert !HasAt(t, v, ".gd:");
    assert t[v..v + 4] == s[v..v + 4];
    HasAtSlice(t, v, ".gd:");
    HasAtSlice(s, v, ".gd:");
  }

  /** A `.gd:` right before the base name would need its `d` and `:` where
      the base name or its `.gd:` stands. */
  lemma MarkerNotAtBaseName(s: string, i: nat, w: nat, e: nat, v: nat)
    requires GeneralShape(s, i, w, e) && v + 1 == i
    ensures !HasAt(s, v, ".gd:")
  {
    if w == i + 1 {
      assert s[v + 2] == '.';
    } else if w == i + 2 {
      assert s[v + 3] == '.';
    } else {
      assert IsWord(s[v + 3]);
    }
    assert s[v + 2] != ".gd:"[2] || s[v + 3] != ".gd:"[3];
  }

  /** No attempt of GeneralError from `k` up to the start `i` of a general
      line behind such a prefix succeeds. */
  lemma GeneralNoMatchBefore(s: string, i: nat, w: nat, e: nat)
    requires GeneralShape(s, i, w, e) && (i == 0 || !IsWord(s[i - 1])) && !Contains(s[..i], ".gd:")
    ensures NoMatchIn(GeneralError, s, 0, i)
  {
    forall k | 0 <= k < i ensures AtStart(GeneralError, s, k).None? {
      GeneralNotBefore(s, i, w, e, k);
    }
  }

  // ---------------------------------------------------------------------
  // TokenError

  /** A line of the shape TokenError describes, position by position: a
      description ending at `p`, ` at line `, a run of digits ending at `le`,
      `, column `, a run of digits ending at `ce` and the closing `.`, which
      is the last character; no line terminator anywhere. */
  predicate TokenShape(s: string, p: nat, le: nat, ce: nat) {
    && 0 < p && p + 9 < le && le + 9 < ce && ce + 1 == |s|
    && (forall j :: 0 <= j < |s| ==> !IsLineTerminator(s[j]))
    && HasAt(s, p, " at line ")
    && (forall j :: p + 9 <= j < le ==> IsDigit(s[j]))
    && s[le] == ',' && HasAt(s, le, ", column ")
    && (forall j :: le + 9 <= j < ce ==> IsDigit(s[j]))
    && s[ce] == '.'
  }

  /** ` at line (\d+), column (\d+)\.` where the description ends. */
  lemma TokenTailAt(s: string, p: nat, le: nat, ce: nat)
    requires TokenShape(s, p, le, ce)
    ensures TokenTail(s, p) == Some((Group(p + 9, le), Group(le + 9, ce)))
  {
    NumberAt(s, p + 9, le);
    NumberAt(s, le + 9, ce);
    assert HasAt(s, ce, ".") by { assert s[ce + 0] == "."[0]; }
  }

  /** After the description no character is an `a`, the second character of
      ` at line `. */
  lemma TokenShapeNoA(s: string, p: nat, le: nat, ce: nat, k: nat)
    requires TokenShape(s, p, le, ce) && p + 1 < k < |s|
    ensures s[k] != 'a'
  {
    if k < p + 9 {
      assert s[p + (k - p)] == " at line "[k - p];
    } else if le <= k < le + 9 {
      assert s[le + (k - le)] == ", column "[k - le];
    }
  }

  /** The tail of TokenError cannot start after the description. */
  lemma TokenTailNotAfter(s: string, p: nat, le: nat, ce: nat, q: nat)
    requires TokenShape(s, p, le, ce) && p < q <= |s|
    ensures TokenTail(s, q).None?
  {
    if HasAt(s, q, " at line ") {
      assert s[q + 1] == " at line "[1];
      TokenShapeNoA(s, p, le, ce, q + 1);
    }
  }

  /** TokenError at the start of a token line: the description is the first
      group, and the line and column numbers are the next two. */
  lemma TokenAtShape(s: string, p: nat, le: nat, ce: nat)
    requires TokenShape(s, p, le, ce)
    ensures TokenAt(s, 0) == Some(Found(|s|, [Some(Group(0, |s|)), Some(Group(0, p)), Some(Group(p + 9, le)), Some(Group(le + 9, ce))]))
  {
    SpanEndStops(s, 0, |s|, NonTerminator);
    TokenTailAt(s, p, le, ce);
    forall r | p < r <= |s| ensures !TokenEnds(s)(r) { TokenTailNotAfter(s, p, le, ce, r); }
    LastWhereIs(TokenEnds(s), 0, p, |s|);
  }

  /** A line of the shape TokenError describes: a description, ` at line `,
      the line number, `, column `, the column number and `.`. */
  function TokenLine(desc: string, line: string, column: string): string {
    desc + " at line " + line + ", column " + column + "."
  }

  lemma TokenLineChars(desc: string, line: string, column: string)
    requires AllIn(desc, NonTerminator) && AllIn(line, Digit) && AllIn(column, Digit)
    ensures var t := TokenLine(desc, line, column);
            var p := |desc|;
            var le := p + 9 + |line|;
            var ce := le + 9 + |column|;
            && |t| == ce + 1
            && (forall j :: 0 <= j < |t| ==> !IsLineTerminator(t[j]))
            && (forall j :: p + 9 <= j < le ==> IsDigit(t[j]))
            && t[le] == ','
            && (forall j :: le + 9 <= j < ce ==> IsDigit(t[j]))
            && t[ce] == '.'
  {
    var t := TokenLine(desc, line, column);
    var p := |desc|;
    var le := p + 9 + |line|;
    var ce := le + 9 + |column|;
    forall j | 0 <= j < |t| ensures !IsLineTerminator(t[j]) {
      if j < p { assert t[j] == desc[j]; }
      else if j < p + 9 { assert t[j] == " at line "[j - p]; }
      else if j < le { assert t[j] == line[j - p - 9]; }
      else if j < le + 9 { assert t[j] == ", column "[j - le]; }
      else if j < ce { assert t[j] == column[j - le - 9]; }
    }
    forall j | p + 9 <= j < le ensures IsDigit(t[j]) { assert t[j] == line[j - p - 9]; }
    forall j | le + 9 <= j < ce ensures IsDigit(t[j]) { assert t[j] == column[j - le - 9]; }
  }

  lemma TokenLineLiterals(desc: string, line: string, column: string)
    ensures var t := TokenLine(desc, line, column);
            var p := |desc|;
            var le := p + 9 + |line|;
            HasAt(t, p, " at line ") && HasAt(t, le, ", column ")
  {
    var t := TokenLine(desc, line, column);
    var p := |desc|;
    var le := p + 9 + |line|;
    assert t[p..p + 9] == " at line ";
    HasAtSlice(t, p, " at line ");
    assert t[le..le + 9] == ", column ";
    HasAtSlice(t, le, ", column ");
  }

  lemma TokenLineTexts(desc: string, line: string, column: string)
    ensures var t := TokenLine(desc, line, column);
            var p := |desc|;
            var le := p + 9 + |line|;
            var ce := le + 9 + |column|;
            && ce <= |t|
            && Captured(t, Group(0, p)) == desc && Captured(t, Group(p + 9, le)) == line
            && Captured(t, Group(le + 9, ce)) == column
  {
  }

  /** A line built from a description and two numbers has the token shape,
      and its groups hold the description and the digits of the numbers. */
  lemma TokenLineShape(desc: string, line: string, column: string)
    requires |desc| > 0 && AllIn(desc, NonTerminator)
    requires |line| > 0 && AllIn(line, Digit) && |column| > 0 && AllIn(column, Digit)
    ensures var t := TokenLine(desc, line, column);
            var p := |desc|;
            var le := p + 9 + |line|;
            var ce := le + 9 + |column|;
            && TokenShape(t, p, le, ce)
            && Captured(t, Group(0, p)) == desc && Captured(t, Group(p + 9, le)) == line
            && Captured(t, Group(le + 9, ce)) == column
  {
    TokenLineChars(desc, line, column);
    TokenLineLiterals(desc, line, column);
    TokenLineTexts(desc, line, column);
  }

  // ---------------------------------------------------------------------
  // UnexpectedToken

  /** A line of the shape UnexpectedToken describes, position by position:
      `Token`, a text ending at `p`, `:`, a run of digits ending at `le`, `:`,
      a run of digits ending at `ce`, `: Unexpected token` and a non-empty
      rest without `:`; no line terminator anywhere. */
  predicate UnexpectedShape(s: string, p: nat, le: nat, ce: nat) {
    && 5 < p && p + 1 < le && le + 1 < ce && ce + 18 < |s|
    && HasAt(s, 0, "Token")
    && (forall j :: 0 <= j < |s| ==> !IsLineTerminator(s[j]))
    && s[p] == ':' && HasAt(s, p, ":")
    && (forall j :: p + 1 <= j < le ==> IsDigit(s[j]))
    && s[le] == ':' && HasAt(s, le, ":")
    && (forall j :: le + 1 <= j < ce ==> IsDigit(s[j]))
    && s[ce] == ':' && s[ce + 1] == ' ' && HasAt(s, ce, ": Unexpected token")
    && (forall j :: ce + 18 <= j < |s| ==> s[j] != ':')
  }

  /** `:(\d+):(\d+): Unexpected token(.+)` where the text after `Token` ends. */
  lemma UnexpectedTailAt(s: string, p: nat, le: nat, ce: nat)
    requires UnexpectedShape(s, p, le, ce)
    ensures UnexpectedTail(s, p) == Some((Group(p + 1, le), Group(le + 1, ce), Group(ce + 18, |s|)))
  {
    UnexpectedNumbers(s, p, le, ce);
    SpanEndStops(s, ce + 18, |s|, NonTerminator);
  }

  lemma UnexpectedNumbers(s: string, p: nat, le: nat, ce: nat)
    requires UnexpectedShape(s, p, le, ce)
    ensures Number(s, p + 1) == Some(Group(p + 1, le)) && Number(s, le + 1) == Some(Group(le + 1, ce))
  {
    NumberAt(s, p + 1, le);
    NumberAt(s, le + 1, ce);
  }

  /** After the text that follows `Token`, the only colons are the two
      separators of the numbers and the one before ` Unexpected token`. */
  lemma UnexpectedShapeColons(s: string, p: nat, le: nat, ce: nat, k: nat)
    requires UnexpectedShape(s, p, le, ce) && p < k < |s| && k != le && k != ce
    ensures s[k] != ':'
  {
    if ce < k < ce + 18 {
      assert s[ce + (k - ce)] == ": Unexpected token"[k - ce];
    }
  }

  /** The tail of UnexpectedToken cannot start after the text that follows
      `Token`: at the two other colons the second number is missing. */
  lemma UnexpectedTailNotAfter(s: string, p: nat, le: nat, ce: nat, q: nat)
    requires UnexpectedShape(s, p, le, ce) && p < q <= |s|
    ensures UnexpectedTail(s, q).None?
  {
    if q == le {
      NumberAt(s, le + 1, ce);
      assert Number(s, ce + 1).None?;
    } else if q == ce {
      assert Number(s, ce + 1).None?;
    } else if q < |s| {
      UnexpectedShapeColons(s, p, le, ce, q);
      assert !HasAt(s, q, ":") by { assert ":"[0] == ':'; }
    }
  }

  /** UnexpectedToken at the start of an unexpected-token line: the text
      after `Token`, the two numbers and the rest of the line are the groups. */
  lemma UnexpectedAtShape(s: string, p: nat, le: nat, ce: nat)
    requires UnexpectedShape(s, p, le, ce)
    ensures UnexpectedAt(s, 0) == Some(Found(|s|, [Some(Group(0, |s|)), Some(Group(5, p)), Some(Group(p + 1, le)),
                                                    Some(Group(le + 1, ce)), Some(Group(ce + 18, |s|))]))
  {
    SpanEndStops(s, 5, |s|, NonTerminator);
    UnexpectedTailAt(s, p, le, ce);
    forall r | p < r <= |s| ensures !UnexpectedEnds(s)(r) { UnexpectedTailNotAfter(s, p, le, ce, r); }
    LastWhereIs(UnexpectedEnds(s), 5, p, |s|);
  }

  /** A line of the shape UnexpectedToken describes: `Token`, a text, `:`,
      the line number, `:`, the column number, `: Unexpected token` and the
      rest of the message. */
  function UnexpectedLine(text: string, line: string, column: string, rest: string): string {
    "Token" + text + ":" + line + ":" + column + ": Unexpected token" + rest
  }

  lemma UnexpectedLineChars(text: string, line: string, column: string, rest: string)
    requires AllIn(text, NonTerminator) && AllIn(line, Digit) && AllIn(column, Digit) && AllIn(rest, NonTerminator)
    requires forall j :: 0 <= j < |rest| ==> rest[j] != ':'
    ensures var t := UnexpectedLine(text, line, column, rest);
            var p := 5 + |text|;
            var le := p + 1 + |line|;
            var ce := le + 1 + |column|;
            && |t| == ce + 18 + |rest|
            && (forall j :: 0 <= j < |t| ==> !IsLineTerminator(t[j]))
            && t[p] == ':' && (forall j :: p + 1 <= j < le ==> IsDigit(t[j]))
            && t[le] == ':' && (forall j :: le + 1 <= j < ce ==> IsDigit(t[j]))
            && t[ce] == ':' && t[ce + 1] == ' '
            && (forall j :: ce + 18 <= j < |t| ==> t[j] != ':')
  {
    var t := UnexpectedLine(text, line, column, rest);
    var p := 5 + |text|;
    var le := p + 1 + |line|;
    var ce := le + 1 + |column|;
    forall j | 0 <= j < |t| ensures !IsLineTerminator(t[j]) {
      if j < 5 { assert t[j] == "Token"[j]; }
      else if j < p { assert t[j] == text[j - 5]; }
      else if p < j < le { assert t[j] == line[j - p - 1]; }
      else if le < j < ce { assert t[j] == column[j - le - 1]; }
      else if ce <= j < ce + 18 { assert t[j] == ": Unexpected token"[j - ce]; }
      else if ce + 18 <= j { assert t[j] == rest[j - ce - 18]; }
    }
    forall j | p + 1 <= j < le ensures IsDigit(t[j]) { assert t[j] == line[j - p - 1]; }
    forall j | le + 1 <= j < ce ensures IsDigit(t[j]) { assert t[j] == column[j - le - 1]; }
    forall j | ce + 18 <= j < |t| ensures t[j] != ':' { assert t[j] == rest[j - ce - 18]; }
  }

  lemma UnexpectedLineLiterals(text: string, line: string, column: string, rest: string)
    ensures var t := UnexpectedLine(text, line, column, rest);
            var p := 5 + |text|;
            var le := p + 1 + |line|;
            var ce := le + 1 + |column|;
            HasAt(t, 0, "Token") && HasAt(t, p, ":") && HasAt(t, le, ":") && HasAt(t, ce, ": Unexpected token")
  {
    var t := UnexpectedLine(text, line, column, rest);
    var p := 5 + |text|;
    var le := p + 1 + |line|;
    var ce := le + 1 + |column|;
    assert t[0..5] == "Token";
    HasAtSlice(t, 0, "Token");
    assert t[p..p + 1] == ":";
    HasAtSlice(t, p, ":");
    assert t[le..le + 1] == ":";
    HasAtSlice(t, le, ":");
    assert t[ce..ce + 18] == ": Unexpected token";
    HasAtSlice(t, ce, ": Unexpected token");
  }

  lemma UnexpectedLineTexts(text: string, line: string, column: string, rest: string)
    ensures var t := UnexpectedLine(text, line, column, rest);
            var p := 5 + |text|;
            var le := p + 1 + |line|;
            var ce := le + 1 + |column|;
            && ce + 18 <= |t|
            && Captured(t, Group(5, p)) == text && Captured(t, Group(p + 1, le)) == line
            && Captured(t, Group(le + 1, ce)) == column && Captured(t, Group(ce + 18, |t|)) == rest
  {
  }

  /** A line built from a text, two numbers and a rest without `:` has the
      unexpected-token shape, and its groups hold those pieces. */
  lemma UnexpectedLineShape(text: string, line: string, column: string, rest: string)
    requires |text| > 0 && AllIn(text, NonTerminator)
    requires |line| > 0 && AllIn(line, Digit) && |column| > 0 && AllIn(column, Digit)
    requires |rest| > 0 && AllIn(rest, NonTerminator) && forall j :: 0 <= j < |rest| ==> rest[j] != ':'
    ensures var t := UnexpectedLine(text, line, column, rest);
            var p := 5 + |text|;
            var le := p + 1 + |line|;
            var ce := le + 1 + |column|;
            && UnexpectedShape(t, p, le, ce)
            && Captured(t, Group(5, p)) == text && Captured(t, Group(p + 1, le)) == line
            && Captured(t, Group(le + 1, ce)) == column && Captured(t, Group(ce + 18, |t|)) == rest
  {
    UnexpectedLineChars(text, line, column, rest);
    UnexpectedLineLiterals(text, line, column, rest);
    UnexpectedLineTexts(text, line, column, rest);
  }

  // ---------------------------------------------------------------------
  // What each recogniser needs

  /** GeneralError only matches a line that contains `.gd:` and `Error:`. */
  lemma GeneralNeedsMarker(s: string, i: nat)
    requires i <= |s| && GeneralAt(s, i).Some?
    ensures Contains(s, ".gd:") && Contains(s, "Error:")
  {
    var w := SpanEnd(s, i, Word);
    assert HasAt(s, w, ".gd:");
    var (n, m) := GeneralTail(s, w).value;
    var i1 := n.end + 1 + OptSpace(s, n.end + 1);
    assert HasAt(s, i1, "Error:");
  }

  /** TokenError only matches a line that contains ` at line `. */
  lemma TokenNeedsAtLine(s: string, i: nat)
    requires i <= |s| && TokenAt(s, i).Some?
    ensures Contains(s, " at line ")
  {
    var p := LastWhere(TokenEnds(s), i, SpanEnd(s, i, NonTerminator)).value;
    assert HasAt(s, p, " at line ");
  }

  /** UnexpectedToken only matches a line that contains `: Unexpected token`. */
  lemma UnexpectedNeedsMarker(s: string, i: nat)
    requires i <= |s| && UnexpectedAt(s, i).Some?
    ensures Contains(s, ": Unexpected token")
  {
    var p := LastWhere(UnexpectedEnds(s), i + 5, SpanEnd(s, i + 5, NonTerminator)).value;
    var (l, c, y) := UnexpectedTail(s, p).value;
    assert HasAt(s, c.end, ": Unexpected token");
  }

  /** The same, for a search anywhere in the line. */
  lemma SearchNeedsLiteral(p: Pattern, s: string, from: nat)
    requires from <= |s| && p != TokenFile && Search(p, s, from).Some?
    ensures p == GeneralError ==> Contains(s, ".gd:") && Contains(s, "Error:")
    ensures p == TokenError ==> Contains(s, " at line ")
    ensures p == UnexpectedToken ==> Contains(s, ": Unexpected token")
  {
    var k := Search(p, s, from).value.index;
    match p
    case GeneralError => GeneralNeedsMarker(s, k);
    case TokenError => TokenNeedsAtLine(s, k);
    case UnexpectedToken => UnexpectedNeedsMarker(s, k);
  }

  /** A search for GeneralError from `from` finds the attempt at `i` when
      every attempt before it fails. */
  lemma GeneralSearchFinds(s: string, from: nat, i: nat)
    requires from <= i <= |s| && NoMatchIn(GeneralError, s, from, i) && GeneralAt(s, i).Some?
    ensures Search(GeneralError, s, from) == Some(Match(i, GeneralAt(s, i).value.end, GeneralAt(s, i).value.groups))
  {
    assert AtStart(GeneralError, s, i) == GeneralAt(s, i);
    var r := Search(GeneralError, s, from);
    assert r.Some? && r.value.index == i;
  }
}

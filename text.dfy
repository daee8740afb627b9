/**
 * Character classes and string helpers with JavaScript's meaning: the
 * classes `\w`, `\d`, `\s` and `.` of a regular expression without the `u`
 * and `s` flags, `String.prototype.trim`, `split('\n')`, `includes` and the
 * value `parseInt` gives a string of decimal digits.
 */
module Text {

  /** `\n`, `\r`, U+2028 and U+2029: the characters `.` does not match. */
  predicate IsLineTerminator(c: char) {
    c == '\n' || c == '\r' || c == '\U{2028}' || c == '\U{2029}'
  }

  /** The class `\s`; `trim` strips exactly these characters too. */
  predicate IsSpace(c: char) {
    IsLineTerminator(c) || c == '\t' || c == '\U{000B}' || c == '\U{000C}' || c == ' '
    || c == '\U{00A0}' || c == '\U{1680}' || ('\U{2000}' <= c <= '\U{200A}')
    || c == '\U{202F}' || c == '\U{205F}' || c == '\U{3000}' || c == '\U{FEFF}'
  }

  /** The class `\w`. */
  predicate IsWord(c: char) {
    ('a' <= c <= 'z') || ('A' <= c <= 'Z') || ('0' <= c <= '9') || c == '_'
  }

  /** The class `\d`. */
  predicate IsDigit(c: char) {
    '0' <= c <= '9'
  }

  datatype CharClass = Word | Digit | Space | NonTerminator | NonNewline

  predicate InClass(c: char, k: CharClass) {
    match k
    case Word => IsWord(c)
    case Digit => IsDigit(c)
    case Space => IsSpace(c)
    case NonTerminator => !IsLineTerminator(c)
    case NonNewline => c != '\n'
  }

  predicate AllIn(s: string, k: CharClass) {
    forall j :: 0 <= j < |s| ==> InClass(s[j], k)
  }

  /** The end of the longest run of characters of class `k` starting at `i`:
      what a greedy `k+` or `k*` consumes from `i`. */
  function SpanEnd(s: string, i: nat, k: CharClass): (r: nat)
    requires i <= |s|
    ensures i <= r <= |s|
    ensures forall j :: i <= j < r ==> InClass(s[j], k)
    ensures r == |s| || !InClass(s[r], k)
    decreases |s| - i
  {
    if i == |s| || !InClass(s[i], k) then i else SpanEnd(s, i + 1, k)
  }

  /** The literal `lit` occurs in `s` at position `i`. */
  predicate HasAt(s: string, i: nat, lit: string) {
    i + |lit| <= |s| && forall j :: 0 <= j < |lit| ==> s[i + j] == lit[j]
  }

  /** `HasAt` is the comparison of a slice of `s` with `lit`. */
  lemma HasAtSlice(s: string, i: nat, lit: string)
    requires i + |lit| <= |s|
    ensures HasAt(s, i, lit) <==> s[i..i + |lit|] == lit
  {
    if s[i..i + |lit|] == lit {
      forall j | 0 <= j < |lit| ensures s[i + j] == lit[j] { assert s[i..i + |lit|][j] == s[i + j]; }
    }
  }

  /** A literal found at `i` carries each of its prefixes there too. */
  lemma HasAtPrefix(s: string, i: nat, lit: string, k: nat)
    requires HasAt(s, i, lit) && k <= |lit|
    ensures HasAt(s, i, lit[..k])
  {
  }

  /** `s.includes(lit)`. */
  predicate Contains(s: string, lit: string)
    ensures Contains(s, lit) ==> |lit| <= |s|
  {
    exists i | 0 <= i <= |s| :: HasAt(s, i, lit)
  }

  /** Every string includes the empty string. */
  lemma ContainsEmpty(s: string)
    ensures Contains(s, "")
  {
    assert HasAt(s, 0, "");
  }

  /** `c` does not occur in `s`. */
  predicate Lacks(s: string, c: char) {
    forall i :: 0 <= i < |s| ==> s[i] != c
  }

  /** `a` is never directly followed by `b` in `s`. */
  predicate LacksPair(s: string, a: char, b: char) {
    forall i :: 0 <= i < |s| - 1 ==> !(s[i] == a && s[i + 1] == b)
  }

  /** A string that lacks one of the characters of `lit` does not contain `lit`. */
  lemma NotContainsChar(s: string, lit: string, k: nat)
    requires k < |lit| && Lacks(s, lit[k])
    ensures !Contains(s, lit)
  {
    forall i | 0 <= i <= |s| ensures !HasAt(s, i, lit) {
      if i + |lit| <= |s| {
        assert s[i + k] != lit[k];
      }
    }
  }

  /** A string in which two neighbouring characters of `lit` never occur
      side by side does not contain `lit`. */
  lemma NotContainsPair(s: string, lit: string, k: nat)
    requires k + 1 < |lit| && LacksPair(s, lit[k], lit[k + 1])
    ensures !Contains(s, lit)
  {
    forall i | 0 <= i <= |s| ensures !HasAt(s, i, lit) {
      if i + |lit| <= |s| {
        assert !(s[i + k] == lit[k] && s[i + k + 1] == lit[k + 1]);
      }
    }
  }

  /** The start of the run of whitespace that ends at `j` and does not reach below `lo`. */
  function TrailingSpaceStart(s: string, lo: nat, j: nat): (r: nat)
    requires lo <= j <= |s|
    ensures lo <= r <= j
    ensures forall k :: r <= k < j ==> IsSpace(s[k])
    ensures r == lo || !IsSpace(s[r - 1])
    decreases j
  {
    if j == lo || !IsSpace(s[j - 1]) then j else TrailingSpaceStart(s, lo, j - 1)
  }

  predicate IsTrimmed(s: string) {
    s == [] || (!IsSpace(s[0]) && !IsSpace(s[|s| - 1]))
  }

  /** `s.trim()`: the result is trimmed and no longer than `s`. */
  function Trim(s: string): (r: string)
    ensures IsTrimmed(r) && |r| <= |s|
  {
    var a := SpanEnd(s, 0, Space);
    var b := TrailingSpaceStart(s, a, |s|);
    s[a..b]
  }

  /** Trimming removes whitespace at both ends and nothing else: the result
      is a slice of `s` with only whitespace before and after it. */
  lemma TrimStripsSpace(s: string)
    ensures exists a :: 0 <= a <= |s| - |Trim(s)| && s[a..a + |Trim(s)|] == Trim(s)
                        && AllIn(s[..a], Space) && AllIn(s[a + |Trim(s)|..], Space)
  {
    var a := SpanEnd(s, 0, Space);
    var b := TrailingSpaceStart(s, a, |s|);
    assert AllIn(s[..a], Space) && AllIn(s[b..], Space);
    assert a + |Trim(s)| == b;
  }

  /** `parts.join('\n')`. */
  function Join(parts: seq<string>): string
  {
    if |parts| == 0 then "" else if |parts| == 1 then parts[0] else parts[0] + "\n" + Join(parts[1..])
  }

  /** `s.split('\n')`: at least one piece, no piece holds a newline, and joining the pieces gives `s` back. */
  function Split(s: string): (r: seq<string>)
    ensures |r| >= 1
    ensures forall k :: 0 <= k < |r| ==> '\n' !in r[k]
    ensures Join(r) == s
    decreases |s|
  {
    var k := SpanEnd(s, 0, NonNewline);
    if k == |s| then
      [s]
    else
      var rest := Split(s[k + 1..]);
      var r := [s[..k]] + rest;
      assert r[1..] == rest;
      assert s == s[..k] + "\n" + s[k + 1..];
      r
  }

  function DigitValue(c: char): nat
    requires IsDigit(c)
  {
    c as int - '0' as int
  }

  /** The value `parseInt` gives a non-empty string of decimal digits (read as an exact natural number). */
  function Decimal(ds: string): (r: nat)
    requires AllIn(ds, Digit)
    ensures r == 0 <==> forall j :: 0 <= j < |ds| ==> ds[j] == '0'
  {
    if ds == [] then 0 else 10 * Decimal(ds[..|ds| - 1]) + DigitValue(ds[|ds| - 1])
  }

  /** The shortest decimal spelling of `n`. */
  function DecimalDigits(n: nat): (r: string)
    ensures |r| >= 1 && AllIn(r, Digit)
  {
    var last := ['0' + (n % 10) as char];
    if n < 10 then last else DecimalDigits(n / 10) + last
  }

  /** parseInt reads back the spelling `DecimalDigits` produces. */
  lemma {:induction false} DecimalRoundTrip(n: nat)
    ensures Decimal(DecimalDigits(n)) == n
  {
    var ds := DecimalDigits(n);
    if n >= 10 {
      DecimalRoundTrip(n / 10);
      assert ds[..|ds| - 1] == DecimalDigits(n / 10);
    }
  }

  /** Splitting on newlines undoes joining pieces that hold no newline. */
  lemma {:induction false} SplitJoin(parts: seq<string>)
    requires |parts| >= 1
    requires forall k :: 0 <= k < |parts| ==> '\n' !in parts[k]
    ensures Split(Join(parts)) == parts
  {
    var s := Join(parts);
    var k := SpanEnd(s, 0, NonNewline);
    if |parts| == 1 {
      assert k == |s|;
    } else {
      SplitJoin(parts[1..]);
      var p := parts[0];
      assert s == p + "\n" + Join(parts[1..]);
      assert s[|p|] == '\n';
      assert k == |p|;
      assert s[..k] == p;
      assert s[k + 1..] == Join(parts[1..]);
    }
  }

  /** Trimming leaves an already trimmed string alone; in particular trimming twice is trimming once. */
  lemma TrimTrimmed(s: string)
    requires IsTrimmed(s)
    ensures Trim(s) == s
  {
    if s != [] {
      assert SpanEnd(s, 0, Space) == 0;
      assert TrailingSpaceStart(s, 0, |s|) == |s|;
    }
  }

  /** The run of class `k` that starts at `|a|` in `a + run + b` is exactly `run` when `b` does not continue it. */
  lemma {:induction false} SpanEndOver(a: string, run: string, b: string, k: CharClass)
    requires AllIn(run, k)
    requires b == [] || !InClass(b[0], k)
    ensures SpanEnd(a + run + b, |a|, k) == |a| + |run|
    decreases |run|
  {
    var s := a + run + b;
    if run != [] {
      assert s == (a + [run[0]]) + run[1..] + b;
      SpanEndOver(a + [run[0]], run[1..], b, k);
    } else {
      assert s == a + b;
    }
  }
}

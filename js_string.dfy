/**
 * The pieces of JavaScript's built-in string handling that the worker relies on:
 * `String.prototype.split` with a one-character separator, `String.prototype.trim`,
 * and the decimal rendering of a positive integer inside a template literal.
 */
module JsString {

  /* ---------------------------------------------------------------- split */

  /** `s.split(sep)` for a one-character separator: the pieces between separators, in order. */
  function Split(s: string, sep: char): (parts: seq<string>)
    ensures |parts| >= 1
    ensures forall i :: 0 <= i < |parts| ==> sep !in parts[i]
    decreases |s|
  {
    if s == [] then [""]
    else if s[0] == sep then [""] + Split(s[1..], sep)
    else
      var rest := Split(s[1..], sep);
      [[s[0]] + rest[0]] + rest[1..]
  }

  /** `parts.join(sep)`: the inverse of `Split`. */
  function Join(parts: seq<string>, sep: char): string
    requires |parts| >= 1
  {
    if |parts| == 1 then parts[0] else parts[0] + [sep] + Join(parts[1..], sep)
  }

  /** Splitting and joining again gives back the original string. */
  lemma {:induction false} JoinSplit(s: string, sep: char)
    ensures Join(Split(s, sep), sep) == s
    decreases |s|
  {
    if s == [] {
    } else if s[0] == sep {
      JoinSplit(s[1..], sep);
      assert s == [sep] + s[1..];
    } else {
      var rest := Split(s[1..], sep);
      JoinSplit(s[1..], sep);
      if |rest| == 1 {
        assert s == [s[0]] + s[1..];
      } else {
        assert Join(rest, sep) == rest[0] + [sep] + Join(rest[1..], sep);
        assert s == [s[0]] + s[1..];
      }
    }
  }

  /** A separator-free piece in front of a separator splits off as one part. */
  lemma {:induction false} SplitPrefix(p: string, rest: string, sep: char)
    requires sep !in p
    ensures Split(p + [sep] + rest, sep) == [p] + Split(rest, sep)
    decreases |p|
  {
    if p == [] {
      assert p + [sep] + rest == [sep] + rest;
    } else {
      SplitPrefix(p[1..], rest, sep);
      assert (p + [sep] + rest)[1..] == p[1..] + [sep] + rest;
      assert [p[0]] + p[1..] == p;
    }
  }

  /** A separator-free string is a single part. */
  lemma {:induction false} SplitNoSeparator(p: string, sep: char)
    requires sep !in p
    ensures Split(p, sep) == [p]
    decreases |p|
  {
    if p != [] {
      SplitNoSeparator(p[1..], sep);
      assert p == [p[0]] + p[1..];
    }
  }

  /** Joining separator-free parts and splitting again gives back the parts. */
  lemma {:induction false} SplitJoin(parts: seq<string>, sep: char)
    requires |parts| >= 1
    requires forall i :: 0 <= i < |parts| ==> sep !in parts[i]
    ensures Split(Join(parts, sep), sep) == parts
    decreases |parts|
  {
    if |parts| == 1 {
      SplitNoSeparator(parts[0], sep);
    } else {
      SplitJoin(parts[1..], sep);
      SplitPrefix(parts[0], Join(parts[1..], sep), sep);
      assert parts == [parts[0]] + parts[1..];
    }
  }

  /* ----------------------------------------------------------------- trim */

  /** ECMAScript's WhiteSpace and LineTerminator characters, which `trim` removes. */
  predicate IsWhiteSpace(c: char) {
    c == '\t' || c == '\n' || c == '\U{000B}' || c == '\U{000C}' || c == '\r' || c == ' '
    || c == '\U{00A0}' || c == '\U{1680}' || ('\U{2000}' <= c <= '\U{200A}')
    || c == '\U{2028}' || c == '\U{2029}' || c == '\U{202F}' || c == '\U{205F}'
    || c == '\U{3000}' || c == '\U{FEFF}'
  }

  predicate AllWhiteSpace(s: string) {
    forall i :: 0 <= i < |s| ==> IsWhiteSpace(s[i])
  }

  /** Neither end of `s` is white space. */
  predicate IsTrimmed(s: string) {
    s == [] || (!IsWhiteSpace(s[0]) && !IsWhiteSpace(s[|s| - 1]))
  }

  /** The length of the longest all-white-space prefix of `s`. */
  function LeadingWhiteSpace(s: string): (k: nat)
    ensures k <= |s|
    ensures AllWhiteSpace(s[..k])
    ensures k < |s| ==> !IsWhiteSpace(s[k])
  {
    if s == [] || !IsWhiteSpace(s[0]) then 0 else 1 + LeadingWhiteSpace(s[1..])
  }

  /** The length of the longest all-white-space suffix of `s`. */
  function TrailingWhiteSpace(s: string): (k: nat)
    ensures k <= |s|
    ensures AllWhiteSpace(s[|s| - k..])
    ensures k < |s| ==> !IsWhiteSpace(s[|s| - k - 1])
  {
    if s == [] || !IsWhiteSpace(s[|s| - 1]) then 0
    else 1 + TrailingWhiteSpace(s[..|s| - 1])
  }

  /** `s.trim()`: `s` without its leading and trailing white space. */
  function Trim(s: string): (r: string)
    ensures IsTrimmed(r)
  {
    var t := s[LeadingWhiteSpace(s)..];
    t[..|t| - TrailingWhiteSpace(t)]
  }

  /** What `Trim` removes is white space at either end and nothing else. */
  lemma TrimIsInfix(s: string)
    ensures exists i, j :: 0 <= i <= j <= |s| && Trim(s) == s[i..j]
                           && AllWhiteSpace(s[..i]) && AllWhiteSpace(s[j..])
  {
    var i := LeadingWhiteSpace(s);
    var t := s[i..];
    var k := TrailingWhiteSpace(t);
    var j := |s| - k;
    assert Trim(s) == t[..|t| - k] == s[i..j];
    assert t[|t| - k..] == s[j..];
    assert 0 <= i <= j <= |s| && Trim(s) == s[i..j] && AllWhiteSpace(s[..i]) && AllWhiteSpace(s[j..]);
  }

  /** Trimming never brings in a character that was not there. */
  lemma TrimKeepsCharacters(s: string, c: char)
    requires c in Trim(s)
    ensures c in s
  {
    TrimIsInfix(s);
    var i, j :| 0 <= i <= j <= |s| && Trim(s) == s[i..j];
    var n :| 0 <= n < |Trim(s)| && Trim(s)[n] == c;
    assert s[i + n] == c;
  }

  /**
   * The leading white space is the unique all-white-space prefix followed by a non-space;
   * this follows from `LeadingWhiteSpace`'s contract alone.
   */
  lemma LeadingWhiteSpaceUnique(s: string, m: nat)
    requires m <= |s| && AllWhiteSpace(s[..m])
    requires m < |s| ==> !IsWhiteSpace(s[m])
    ensures LeadingWhiteSpace(s) == m
  {
    var k := LeadingWhiteSpace(s);
    forall i | 0 <= i < m ensures IsWhiteSpace(s[i]) {
      assert s[..m][i] == s[i];
    }
    forall i | 0 <= i < k ensures IsWhiteSpace(s[i]) {
      assert s[..k][i] == s[i];
    }
  }

  /**
   * The trailing white space is the unique all-white-space suffix preceded by a non-space;
   * this follows from `TrailingWhiteSpace`'s contract alone.
   */
  lemma TrailingWhiteSpaceUnique(s: string, m: nat)
    requires m <= |s| && AllWhiteSpace(s[|s| - m..])
    requires m < |s| ==> !IsWhiteSpace(s[|s| - m - 1])
    ensures TrailingWhiteSpace(s) == m
  {
  }

  /** Trimming removes exactly the white-space padding around a trimmed core. */
  lemma TrimPadded(a: string, core: string, b: string)
    requires AllWhiteSpace(a) && AllWhiteSpace(b) && IsTrimmed(core)
    ensures Trim(a + core + b) == core
  {
    var s := a + core + b;
    if core == [] {
      assert s == a + b;
      assert AllWhiteSpace(s) by {
        forall n | 0 <= n < |s| ensures IsWhiteSpace(s[n]) {
          if n < |a| { assert s[n] == a[n]; } else { assert s[n] == b[n - |a|]; }
        }
      }
      LeadingWhiteSpaceUnique(s, |s|);
      assert s[|s|..] == [];
    } else {
      assert s[..|a|] == a;
      assert s[|a|] == core[0];
      LeadingWhiteSpaceUnique(s, |a|);
      var t := s[|a|..];
      assert t == core + b;
      assert t[|t| - |b|..] == b;
      assert t[|t| - |b| - 1] == core[|core| - 1];
      TrailingWhiteSpaceUnique(t, |b|);
      assert s[|a|..|s| - |b|] == core;
    }
  }

  /** Trimming a trimmed string changes nothing; so `trim` is idempotent. */
  lemma TrimTrimmed(s: string)
    requires IsTrimmed(s)
    ensures Trim(s) == s
  {
    TrimPadded([], s, []);
    assert [] + s + [] == s;
  }

  /* ------------------------------------------------------ decimal numbers */

  predicate IsDigit(c: char) { '0' <= c <= '9' }

  function DigitChar(d: nat): (c: char)
    requires d < 10
    ensures IsDigit(c) && c as int - '0' as int == d
  {
    ('0' as int + d) as char
  }

  /** The decimal text JavaScript gives a non-negative integer in a template literal. */
  function DecimalString(n: nat): (s: string)
    ensures |s| >= 1
    ensures forall i :: 0 <= i < |s| ==> IsDigit(s[i])
    ensures s[0] == '0' <==> n == 0
  {
    if n < 10 then [DigitChar(n)] else DecimalString(n / 10) + [DigitChar(n % 10)]
  }

  /** The value of a string of decimal digits. */
  function DecimalValue(s: string): nat
    requires forall i :: 0 <= i < |s| ==> IsDigit(s[i])
  {
    if s == [] then 0
    else
      assert IsDigit(s[|s| - 1]);
      10 * DecimalValue(s[..|s| - 1]) + (s[|s| - 1] as int - '0' as int)
  }

  /** Reading the decimal text back gives the number: the rendering loses nothing. */
  lemma {:induction false} DecimalRoundTrip(n: nat)
    ensures DecimalValue(DecimalString(n)) == n
  {
    if n >= 10 {
      DecimalRoundTrip(n / 10);
      var s := DecimalString(n);
      assert s[..|s| - 1] == DecimalString(n / 10);
    }
  }
}

/**
 JavaScript string operations the normaliser and the search handler rely on:
 the default `Array.prototype.sort` order, `String.prototype.includes`,
 `trim` and (ASCII) `toUpperCase`.
 */
module JsString {

  /** Lexicographic order: the first differing character decides, and a proper
      prefix comes before any of its extensions. This is the order the default
      `sort()` comparator puts string keys in. */
  predicate Less(a: string, b: string)
    decreases |a|
  {
    if |a| == 0 then |b| > 0
    else |b| > 0 && (a[0] < b[0] || (a[0] == b[0] && Less(a[1..], b[1..])))
  }

  predicate LessEq(a: string, b: string) {
    a == b || Less(a, b)
  }

  lemma {:induction false} LessIrreflexive(a: string)
    ensures !Less(a, a)
    decreases |a|
  {
    if |a| > 0 {
      LessIrreflexive(a[1..]);
    }
  }

  lemma {:induction false} LessAsymmetric(a: string, b: string)
    requires Less(a, b)
    ensures !Less(b, a)
    decreases |a|
  {
    if |a| > 0 && a[0] == b[0] {
      LessAsymmetric(a[1..], b[1..]);
    }
  }

  lemma {:induction false} LessTransitive(a: string, b: string, c: string)
    requires Less(a, b) && Less(b, c)
    ensures Less(a, c)
    decreases |a|
  {
    if |a| > 0 && a[0] == b[0] && b[0] == c[0] {
      LessTransitive(a[1..], b[1..], c[1..]);
    }
  }

  /** Any two different strings are ordered one way or the other. */
  lemma {:induction false} LessTotal(a: string, b: string)
    requires a != b
    ensures Less(a, b) || Less(b, a)
    decreases |a|
  {
    if |a| > 0 && |b| > 0 && a[0] == b[0] {
      assert a == [a[0]] + a[1..] && b == [b[0]] + b[1..];
      LessTotal(a[1..], b[1..]);
    }
  }

  /** Two strings that agree before position `i` and differ there are
      ordered by their characters at `i`. */
  lemma {:induction false} LessAtFirstDifference(a: string, b: string, i: nat)
    requires i < |a| && i < |b| && a[..i] == b[..i] && a[i] < b[i]
    ensures Less(a, b)
    decreases i
  {
    if i > 0 {
      assert a[0] == a[..i][0] == b[..i][0] == b[0];
      assert a[1..][..i - 1] == a[..i][1..] == b[..i][1..] == b[1..][..i - 1];
      LessAtFirstDifference(a[1..], b[1..], i - 1);
    }
  }

  lemma LessEqTransitive(a: string, b: string, c: string)
    requires LessEq(a, b) && LessEq(b, c)
    ensures LessEq(a, c)
  {
    if a != b && b != c {
      LessTransitive(a, b, c);
    }
  }

  lemma LessEqAntisymmetric(a: string, b: string)
    requires LessEq(a, b) && LessEq(b, a)
    ensures a == b
  {
    if a != b {
      LessAsymmetric(a, b);
    }
  }

  /** `s.includes(sub)`: `sub` occurs in `s` at some position. */
  predicate Contains(s: string, sub: string) {
    exists i | 0 <= i && i + |sub| <= |s| :: OccursAt(s, sub, i)
  }

  predicate OccursAt(s: string, sub: string, i: nat)
    requires i + |sub| <= |s|
  {
    s[i..i + |sub|] == sub
  }

  /** The characters `String.prototype.trim` removes: the WhiteSpace and
      LineTerminator productions of ECMAScript (tab, vertical tab, form feed,
      line feed, carriage return, the Zs space separators, U+2028, U+2029 and
      the byte order mark). */
  predicate IsWhiteSpace(c: char) {
    || ('\U{0009}' <= c <= '\U{000D}')
    || c == ' '
    || c == '\U{00A0}'
    || c == '\U{1680}'
    || ('\U{2000}' <= c <= '\U{200A}')
    || c == '\U{2028}'
    || c == '\U{2029}'
    || c == '\U{202F}'
    || c == '\U{205F}'
    || c == '\U{3000}'
    || c == '\U{FEFF}'
  }

  /** Drops the leading white space: the result is the suffix of `s` that
      starts at its first non-white-space character. */
  function TrimStart(s: string): (r: string)
    ensures |r| <= |s| && r == s[|s| - |r|..]
    ensures forall k | 0 <= k < |s| - |r| :: IsWhiteSpace(s[k])
    ensures |r| > 0 ==> !IsWhiteSpace(r[0])
  {
    if |s| > 0 && IsWhiteSpace(s[0]) then TrimStart(s[1..]) else s
  }

  /** Drops the trailing white space: the result is the prefix of `s` that
      ends at its last non-white-space character. */
  function TrimEnd(s: string): (r: string)
    ensures |r| <= |s| && r == s[..|r|]
    ensures forall k | |r| <= k < |s| :: IsWhiteSpace(s[k])
    ensures |r| > 0 ==> !IsWhiteSpace(r[|r| - 1])
  {
    if |s| > 0 && IsWhiteSpace(s[|s| - 1]) then TrimEnd(s[..|s| - 1]) else s
  }

  /** `r` is what trimming `s` leaves: a slice of `s` with only white space
      outside it and no white space at either of its ends. */
  ghost predicate IsTrimOf(r: string, s: string) {
    && (|r| > 0 ==> !IsWhiteSpace(r[0]) && !IsWhiteSpace(r[|r| - 1]))
    && exists i | 0 <= i && i + |r| <= |s| :: TrimmedAt(r, s, i)
  }

  /** `r` is the slice of `s` starting at `i`, with only white space around it. */
  ghost predicate TrimmedAt(r: string, s: string, i: nat)
    requires i + |r| <= |s|
  {
    && r == s[i..i + |r|]
    && (forall k | 0 <= k < i :: IsWhiteSpace(s[k]))
    && (forall k | i + |r| <= k < |s| :: IsWhiteSpace(s[k]))
  }

  /** `s.trim()`. */
  function Trim(s: string): (r: string)
    ensures IsTrimOf(r, s)
    ensures |r| == 0 <==> forall k | 0 <= k < |s| :: IsWhiteSpace(s[k])
  {
    TrimBothEnds(s);
    TrimEnd(TrimStart(s))
  }

  lemma TrimBothEnds(s: string)
    ensures IsTrimOf(TrimEnd(TrimStart(s)), s)
    ensures |TrimEnd(TrimStart(s))| == 0 <==> forall k | 0 <= k < |s| :: IsWhiteSpace(s[k])
  {
    var a := TrimStart(s);
    var r := TrimEnd(a);
    var i := |s| - |a|;
    TrimSlice(s, a, r, i);
    if |r| > 0 {
      assert r[0] == s[i];
    }
  }

  /** Dropping white space from the start and then from the end cuts out
      `s[i..i + |r|]`, with only white space left on either side. */
  lemma TrimSlice(s: string, a: string, r: string, i: nat)
    requires i + |a| == |s| && a == s[i..]
    requires forall k | 0 <= k < i :: IsWhiteSpace(s[k])
    requires |r| <= |a| && r == a[..|r|]
    requires forall k | |r| <= k < |a| :: IsWhiteSpace(a[k])
    ensures i + |r| <= |s|
    ensures TrimmedAt(r, s, i)
  {
    assert r == s[i..i + |r|];
    forall k | i + |r| <= k < |s|
      ensures IsWhiteSpace(s[k])
    {
      assert s[k] == a[k - i];
    }
  }

  /** Whatever string two trims agree on, the trimmed value is unique:
      `IsTrimOf` pins the result of `Trim` down completely. */
  lemma TrimOfUnique(r1: string, r2: string, s: string)
    requires IsTrimOf(r1, s) && IsTrimOf(r2, s)
    ensures r1 == r2
  {
    var i1 :| 0 <= i1 && i1 + |r1| <= |s| && TrimmedAt(r1, s, i1);
    var i2 :| 0 <= i2 && i2 + |r2| <= |s| && TrimmedAt(r2, s, i2);
    if |r1| > 0 && |r2| > 0 {
      assert r1[0] == s[i1] && r2[0] == s[i2];
      assert r1[|r1| - 1] == s[i1 + |r1| - 1] && r2[|r2| - 1] == s[i2 + |r2| - 1];
      assert i1 == i2;
      assert i1 + |r1| == i2 + |r2|;
    }
  }

  lemma TrimIdempotent(s: string)
    ensures Trim(Trim(s)) == Trim(s)
  {
    var r := Trim(s);
    assert TrimmedAt(r, r, 0);
    TrimOfUnique(Trim(r), r, r);
  }

  predicate IsLowerAscii(c: char) {
    'a' <= c <= 'z'
  }

  function UpperChar(c: char): char {
    if IsLowerAscii(c) then (c as int - 32) as char else c
  }

  /** `s.toUpperCase()` restricted to the ASCII letters: every lower-case
      ASCII letter becomes its capital, every other character is kept. */
  function ToUpper(s: string): (r: string)
    ensures |r| == |s|
    ensures forall i | 0 <= i < |s| :: r[i] == UpperChar(s[i])
    ensures forall i | 0 <= i < |r| :: !IsLowerAscii(r[i])
    ensures forall i | 0 <= i < |s| :: !IsLowerAscii(s[i]) ==> r[i] == s[i]
    ensures forall i | 0 <= i < |s| :: IsLowerAscii(s[i]) ==> r[i] as int == s[i] as int - 32
    ensures forall i | 0 <= i < |s| :: IsWhiteSpace(r[i]) <==> IsWhiteSpace(s[i])
  {
    seq(|s|, i requires 0 <= i < |s| => UpperChar(s[i]))
  }
}

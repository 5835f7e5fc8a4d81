/**
 * The string operations the page scripts rely on: `includes`, a literal
 * global `replace`, `toLowerCase` and `trim`.  Matching is written over
 * positions rather than slices so that the verifier can evaluate it on
 * literal strings cheaply; the lemmas relate it to the slice-based reading.
 */
module Text {

  /** p[j..] occurs in s at position i + j. */
  predicate MatchFrom(s: string, p: string, i: nat, j: nat)
    requires i + |p| <= |s| && j <= |p|
    decreases |p| - j
  {
    j == |p| || (s[i + j] == p[j] && MatchFrom(s, p, i, j + 1))
  }

  /** p occurs in s starting at position i. */
  predicate OccursAt(s: string, p: string, i: nat)
  {
    i + |p| <= |s| && MatchFrom(s, p, i, 0)
  }

  /** p occurs in s at some position i or later. */
  predicate ContainsFrom(s: string, p: string, i: nat)
    decreases |s| - i
  {
    i + |p| <= |s| && (OccursAt(s, p, i) || ContainsFrom(s, p, i + 1))
  }

  /** String.prototype.includes: the empty string is always included, and nothing longer than s is. */
  predicate Contains(s: string, p: string)
    ensures |p| == 0 ==> Contains(s, p)
    ensures Contains(s, p) ==> |p| <= |s|
  {
    ContainsFrom(s, p, 0)
  }

  lemma {:induction false} MatchFromIff(s: string, p: string, i: nat, j: nat)
    requires i + |p| <= |s| && j <= |p|
    ensures MatchFrom(s, p, i, j) <==> s[i + j..i + |p|] == p[j..]
    decreases |p| - j
  {
    if j < |p| {
      MatchFromIff(s, p, i, j + 1);
      assert s[i + j..i + |p|] == [s[i + j]] + s[i + j + 1..i + |p|];
      assert p[j..] == [p[j]] + p[j + 1..];
    }
  }

  lemma OccursAtIff(s: string, p: string, i: nat)
    ensures OccursAt(s, p, i) <==> i + |p| <= |s| && s[i..i + |p|] == p
  {
    if i + |p| <= |s| {
      MatchFromIff(s, p, i, 0);
    }
  }

  lemma {:induction false} ContainsFromIff(s: string, p: string, i: nat)
    ensures ContainsFrom(s, p, i) <==> exists k: nat :: i <= k && OccursAt(s, p, k)
    decreases |s| - i
  {
    if i + |p| <= |s| {
      ContainsFromIff(s, p, i + 1);
      if exists k: nat :: i <= k && OccursAt(s, p, k) {
        var k: nat :| i <= k && OccursAt(s, p, k);
        if k > i {
          assert i + 1 <= k;
        }
      }
    }
  }

  /** includes(p) holds exactly when p occurs at some position of s. */
  lemma ContainsIff(s: string, p: string)
    ensures Contains(s, p) <==> exists k: nat :: OccursAt(s, p, k)
  {
    ContainsFromIff(s, p, 0);
  }

  /** An occurrence at a known position is an occurrence. */
  lemma OccursAtContains(s: string, p: string, k: nat)
    requires OccursAt(s, p, k)
    ensures Contains(s, p)
  {
    ContainsIff(s, p);
  }

  /** A pattern holding a character that s never holds does not occur in s. */
  lemma MissingCharAbsent(s: string, p: string, k: nat)
    requires k < |p| && p[k] !in s
    ensures !Contains(s, p)
  {
    forall j: nat ensures !OccursAt(s, p, j) {
      OccursAtIff(s, p, j);
      if j + |p| <= |s| {
        assert s[j..j + |p|][k] == s[j + k];
      }
    }
    ContainsIff(s, p);
  }

  /** A pattern whose first character is not in a occurs nowhere before a + p + b's copy of p. */
  lemma FirstCharNotBefore(a: string, p: string, b: string)
    requires |p| > 0 && p[0] !in a
    ensures forall k: nat :: k < |a| ==> !OccursAt(a + p + b, p, k)
  {
    forall k: nat | k < |a| ensures !OccursAt(a + p + b, p, k) {
      OccursAtIff(a + p + b, p, k);
      assert (a + p + b)[k] == a[k];
    }
  }

  /** Every slice of s is contained in s. */
  lemma ContainsSlice(s: string, a: nat, b: nat)
    requires a <= b <= |s|
    ensures Contains(s, s[a..b])
  {
    OccursAtIff(s, s[a..b], a);
    ContainsIff(s, s[a..b]);
  }

  /** What a slice of s contains, s contains. */
  lemma ContainsWithinSlice(s: string, a: nat, b: nat, p: string)
    requires a <= b <= |s| && Contains(s[a..b], p)
    ensures Contains(s, p)
  {
    ContainsIff(s[a..b], p);
    var k: nat :| OccursAt(s[a..b], p, k);
    OccursAtIff(s[a..b], p, k);
    assert k + |p| <= b - a;
    forall j | 0 <= j < |p| ensures s[a + k..a + k + |p|][j] == p[j] {
      assert s[a..b][k..k + |p|][j] == p[j];
    }
    assert s[a + k..a + k + |p|] == p;
    OccursAtIff(s, p, a + k);
    ContainsIff(s, p);
  }

  /**
   * `s.replace(new RegExp(p, 'g'), r)` for a pattern p without regular
   * expression metacharacters: a left-to-right scan that replaces each
   * non-overlapping occurrence of p, starting the search again after it.
   */
  function ReplaceFrom(s: string, p: string, r: string, i: nat): string
    requires |p| > 0
    decreases |s| - i
  {
    if i >= |s| then []
    else if OccursAt(s, p, i) then r + ReplaceFrom(s, p, r, i + |p|)
    else [s[i]] + ReplaceFrom(s, p, r, i + 1)
  }

  /**
   * A replace-all leaves the string as it was exactly when the pattern does
   * not occur in it or is replaced by itself.
   */
  function ReplaceAll(s: string, p: string, r: string): (t: string)
    requires |p| > 0
    ensures t == s <==> !Contains(s, p) || r == p
  {
    if !Contains(s, p) then
      ReplaceFromNoop(s, p, r, 0);
      ReplaceFrom(s, p, r, 0)
    else if r != p then
      ReplaceFromChanges(s, p, r, 0);
      ReplaceFrom(s, p, r, 0)
    else
      ReplaceFromSelf(s, p, 0);
      ReplaceFrom(s, p, r, 0)
  }

  /** How many occurrences ReplaceFrom rewrites. */
  function ReplacedCount(s: string, p: string, i: nat): nat
    requires |p| > 0
    decreases |s| - i
  {
    if i >= |s| then 0
    else if OccursAt(s, p, i) then 1 + ReplacedCount(s, p, i + |p|)
    else ReplacedCount(s, p, i + 1)
  }

  lemma {:induction false} ReplaceFromNoop(s: string, p: string, r: string, i: nat)
    requires |p| > 0 && i <= |s| && !ContainsFrom(s, p, i)
    ensures ReplaceFrom(s, p, r, i) == s[i..]
    decreases |s| - i
  {
    if i < |s| {
      assert !ContainsFrom(s, p, i + 1);
      ReplaceFromNoop(s, p, r, i + 1);
      assert s[i..] == [s[i]] + s[i + 1..];
    }
  }

  lemma {:induction false} ReplaceFromLength(s: string, p: string, r: string, i: nat)
    requires |p| > 0 && i <= |s|
    ensures |ReplaceFrom(s, p, r, i)| == |s| - i + ReplacedCount(s, p, i) * (|r| - |p|)
    decreases |s| - i
  {
    if i < |s| {
      if OccursAt(s, p, i) {
        ReplaceFromLength(s, p, r, i + |p|);
        var c, d := ReplacedCount(s, p, i + |p|), |r| - |p|;
        assert ReplacedCount(s, p, i) == 1 + c;
        assert |ReplaceFrom(s, p, r, i)| == |r| + |ReplaceFrom(s, p, r, i + |p|)|;
        OneMore(c, d);
      } else {
        ReplaceFromLength(s, p, r, i + 1);
      }
    }
  }

  lemma OneMore(c: int, d: int)
    ensures (1 + c) * d == c * d + d
  {
  }

  lemma {:induction false} ReplaceFromChanges(s: string, p: string, r: string, i: nat)
    requires |p| > 0 && i <= |s| && ContainsFrom(s, p, i) && r != p
    ensures ReplaceFrom(s, p, r, i) != s[i..]
    decreases |s| - i
  {
    if OccursAt(s, p, i) {
      if |r| == |p| {
        OccursAtIff(s, p, i);
        assert s[i..] == p + s[i + |p|..];
        DifferentHeads(r, p, ReplaceFrom(s, p, r, i + |p|), s[i + |p|..]);
      } else {
        ReplaceFromLength(s, p, r, i);
        NonzeroProduct(ReplacedCount(s, p, i), |r| - |p|);
      }
    } else {
      ReplaceFromChanges(s, p, r, i + 1);
      assert s[i..] == [s[i]] + s[i + 1..];
      DifferentTails([s[i]], ReplaceFrom(s, p, r, i + 1), s[i + 1..]);
    }
  }

  lemma DifferentHeads(a: string, b: string, x: string, y: string)
    requires |a| == |b| && a != b
    ensures a + x != b + y
  {
    assert (a + x)[..|a|] == a;
    assert (b + y)[..|b|] == b;
  }

  lemma DifferentTails(a: string, x: string, y: string)
    requires x != y
    ensures a + x != a + y
  {
    assert (a + x)[|a|..] == x;
    assert (a + y)[|a|..] == y;
  }

  lemma NonzeroProduct(c: int, d: int)
    requires c >= 1 && d != 0
    ensures c * d != 0
  {
    if d > 0 {
      assert c * d >= d;
    } else {
      assert c * -d >= -d;
    }
  }

  /** When p occurs in a + p + b only between a and b, replacing it swaps just that occurrence. */
  lemma ReplaceSingle(a: string, p: string, b: string, r: string)
    requires |p| > 0
    requires forall k: nat :: k < |a| ==> !OccursAt(a + p + b, p, k)
    requires !ContainsFrom(a + p + b, p, |a| + |p|)
    ensures ReplaceAll(a + p + b, p, r) == a + r + b
  {
    var s := a + p + b;
    ReplaceFromNoop(s, p, r, |a| + |p|);
    assert s[|a| + |p|..] == b;
    ReplaceSingleFrom(a, p, b, b, r, 0);
  }

  /** Up to the first occurrence, which starts at |a|, the scan copies a and then writes r. */
  lemma {:induction false} ReplaceSingleFrom(a: string, p: string, b: string, c: string, r: string, i: nat)
    requires |p| > 0 && i <= |a|
    requires forall k: nat :: i <= k < |a| ==> !OccursAt(a + p + b, p, k)
    requires ReplaceFrom(a + p + b, p, r, |a| + |p|) == c
    ensures ReplaceFrom(a + p + b, p, r, i) == a[i..] + r + c
    decreases |a| - i
  {
    var s := a + p + b;
    if i == |a| {
      OccursAtIff(s, p, i);
      assert s[i..i + |p|] == p;
      assert ReplaceFrom(s, p, r, i) == r + ReplaceFrom(s, p, r, i + |p|);
      assert a[i..] == [];
    } else {
      ReplaceSingleFrom(a, p, b, c, r, i + 1);
      assert !OccursAt(s, p, i) && s[i] == a[i];
      assert ReplaceFrom(s, p, r, i) == [a[i]] + ReplaceFrom(s, p, r, i + 1);
      assert a[i..] == [a[i]] + a[i + 1..];
    }
  }

  /**
   * The global replace works left to right: the first occurrence is replaced
   * and the scan resumes after it, on the rest alone, so an occurrence that
   * overlaps the first one is never replaced.
   */
  lemma ReplaceAllFirst(a: string, p: string, b: string, r: string)
    requires |p| > 0
    requires forall k: nat :: k < |a| ==> !OccursAt(a + p + b, p, k)
    ensures ReplaceAll(a + p + b, p, r) == a + r + ReplaceAll(b, p, r)
  {
    assert a + p + b == (a + p) + b;
    ReplaceFromShift(a + p, b, p, r, 0);
    ReplaceSingleFrom(a, p, b, ReplaceAll(b, p, r), r, 0);
  }

  /** From position |x| + j on, the scan over x + y is the scan over y from j: it never looks back. */
  lemma {:induction false} ReplaceFromShift(x: string, y: string, p: string, r: string, j: nat)
    requires |p| > 0 && j <= |y|
    ensures ReplaceFrom(x + y, p, r, |x| + j) == ReplaceFrom(y, p, r, j)
    decreases |y| - j
  {
    if j < |y| {
      var s := x + y;
      OccursAtShift(x, y, p, j);
      if OccursAt(y, p, j) {
        ReplaceFromShift(x, y, p, r, j + |p|);
        assert ReplaceFrom(s, p, r, |x| + j) == r + ReplaceFrom(s, p, r, |x| + (j + |p|));
      } else {
        ReplaceFromShift(x, y, p, r, j + 1);
        assert s[|x| + j] == y[j];
        assert ReplaceFrom(s, p, r, |x| + j) == [y[j]] + ReplaceFrom(s, p, r, |x| + (j + 1));
      }
    }
  }

  /** An occurrence at j in y is an occurrence at |x| + j in x + y, and the other way round. */
  lemma OccursAtShift(x: string, y: string, p: string, j: nat)
    requires j <= |y|
    ensures OccursAt(x + y, p, |x| + j) == OccursAt(y, p, j)
  {
    OccursAtIff(x + y, p, |x| + j);
    OccursAtIff(y, p, j);
    if j + |p| <= |y| {
      assert (x + y)[|x| + j..|x| + j + |p|] == y[j..j + |p|];
    }
  }

  lemma {:induction false} ReplaceFromSelf(s: string, p: string, i: nat)
    requires |p| > 0 && i <= |s|
    ensures ReplaceFrom(s, p, p, i) == s[i..]
    decreases |s| - i
  {
    if i < |s| {
      if OccursAt(s, p, i) {
        OccursAtIff(s, p, i);
        ReplaceFromSelf(s, p, i + |p|);
        assert s[i..] == s[i..i + |p|] + s[i + |p|..];
      } else {
        ReplaceFromSelf(s, p, i + 1);
        assert s[i..] == [s[i]] + s[i + 1..];
      }
    }
  }

  /** Two instances of ReplaceAllFirst: overlapping occurrences are not replaced twice. */
  lemma ReplaceAllLeftToRight()
    ensures ReplaceAll("aaa", "aa", "b") == "ba"
    ensures ReplaceAll("abab", "ab", "ba") == "baba"
  {
  }

  /** String.prototype.toLowerCase on ASCII letters. */
  function LowerChar(c: char): char
  {
    if 'A' <= c <= 'Z' then (c as int + 32) as char else c
  }

  function Lower(s: string): (r: string)
    ensures |r| == |s|
    ensures forall i :: 0 <= i < |s| ==> r[i] == LowerChar(s[i])
  {
    seq(|s|, i requires 0 <= i < |s| => LowerChar(s[i]))
  }

  /** Lowercasing yields t when it does so character by character. */
  lemma LowerIs(s: string, t: string)
    requires |s| == |t| && forall i :: 0 <= i < |s| ==> LowerChar(s[i]) == t[i]
    ensures Lower(s) == t
  {
  }

  predicate IsUpper(c: char)
  {
    'A' <= c <= 'Z'
  }

  /** No ASCII capital is left after lowercasing. */
  lemma LowerLeavesNoCapital(s: string)
    ensures forall i :: 0 <= i < |s| ==> !IsUpper(Lower(s)[i])
  {
  }

  /**
   * A character that is not an ASCII capital is kept, and a capital becomes
   * the lowercase letter 32 code points above it.
   */
  lemma LowerKeepsOthers(s: string)
    ensures forall i :: 0 <= i < |s| && !IsUpper(s[i]) ==> Lower(s)[i] == s[i]
    ensures forall i :: 0 <= i < |s| && IsUpper(s[i]) ==>
      Lower(s)[i] as int == s[i] as int + 32 && 'a' <= Lower(s)[i] <= 'z'
  {
  }

  /** Lowercasing a second time changes nothing. */
  lemma LowerIdempotent(s: string)
    ensures Lower(Lower(s)) == Lower(s)
  {
    LowerLeavesNoCapital(s);
    LowerUnchangedIff(Lower(s));
  }

  /** Lowercasing leaves a string as it is exactly when it holds no ASCII capital. */
  lemma LowerUnchangedIff(s: string)
    ensures Lower(s) == s <==> forall i :: 0 <= i < |s| ==> !IsUpper(s[i])
  {
    if forall i :: 0 <= i < |s| ==> !IsUpper(s[i]) {
      LowerKeepsOthers(s);
      LowerIs(s, s);
    } else {
      var i :| 0 <= i < |s| && IsUpper(s[i]);
      LowerKeepsOthers(s);
      assert Lower(s)[i] != s[i];
    }
  }

  /** The characters String.prototype.trim strips: WhiteSpace and LineTerminator. */
  predicate IsWhitespace(c: char)
  {
    c == ' ' || c == '\t' || c == '\n' || c == '\r' || c == '\U{B}' || c == '\U{C}'
    || c == '\U{A0}' || c == '\U{1680}' || ('\U{2000}' <= c <= '\U{200A}')
    || c == '\U{2028}' || c == '\U{2029}' || c == '\U{202F}' || c == '\U{205F}'
    || c == '\U{3000}' || c == '\U{FEFF}'
  }

  function TrimStart(s: string): (r: string)
    ensures |r| <= |s| && r == s[|s| - |r|..]
    ensures r == [] || !IsWhitespace(r[0])
    ensures forall i :: 0 <= i < |s| - |r| ==> IsWhitespace(s[i])
  {
    if s != [] && IsWhitespace(s[0]) then
      var t := s[1..];
      var r := TrimStart(t);
      assert t[|t| - |r|..] == s[|s| - |r|..];
      assert forall i :: 1 <= i < |s| - |r| ==> s[i] == t[i - 1];
      r
    else s
  }

  function TrimEnd(s: string): (r: string)
    ensures |r| <= |s| && r == s[..|r|]
    ensures r == [] || !IsWhitespace(r[|r| - 1])
    ensures forall i :: |r| <= i < |s| ==> IsWhitespace(s[i])
  {
    if s != [] && IsWhitespace(s[|s| - 1]) then TrimEnd(s[..|s| - 1]) else s
  }

  /** String.prototype.trim. */
  function Trim(s: string): string
  {
    TrimEnd(TrimStart(s))
  }

  /** Neither end of a trimmed string is whitespace. */
  lemma TrimStrips(s: string)
    ensures var r := Trim(s); r == [] || (!IsWhitespace(r[0]) && !IsWhitespace(r[|r| - 1]))
  {
    var t := TrimStart(s);
    assert TrimEnd(t) == [] || TrimEnd(t)[0] == t[0];
  }

  /** The trimmed string is the slice of s between its leading and trailing whitespace. */
  lemma TrimIsSlice(s: string) returns (a: nat, b: nat)
    ensures a <= b <= |s| && Trim(s) == s[a..b]
    ensures forall i :: 0 <= i < a ==> IsWhitespace(s[i])
    ensures forall i :: b <= i < |s| ==> IsWhitespace(s[i])
  {
    a, b := TrimmedSlice(s);
    TrailingWhitespace(s);
  }

  lemma TrimmedSlice(s: string) returns (a: nat, b: nat)
    ensures a == |s| - |TrimStart(s)| && b == a + |TrimEnd(TrimStart(s))|
    ensures a <= b <= |s| && Trim(s) == s[a..b]
  {
    var t := TrimStart(s);
    var u := TrimEnd(t);
    a, b := |s| - |t|, |s| - |t| + |u|;
    calc {
      Trim(s);
      u;
      t[..|u|];
      { assert t == s[a..]; }
      s[a..][..|u|];
      s[a..b];
    }
  }

  lemma TrailingWhitespace(s: string)
    ensures forall i :: |s| - |TrimStart(s)| + |TrimEnd(TrimStart(s))| <= i < |s| ==> IsWhitespace(s[i])
  {
    var t := TrimStart(s);
    var a := |s| - |t|;
    forall i | a + |TrimEnd(t)| <= i < |s| ensures IsWhitespace(s[i]) {
      assert t == s[a..] && s[i] == t[i - a];
    }
  }
}

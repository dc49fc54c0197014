/** The few string operations of JavaScript's standard library that the
    scripts rely on: `toLowerCase`, `includes`, `trim` and a global
    single-character `replace`. */
module Strings {

  /** Lower-casing of one character (ASCII letters only). */
  function LowerChar(c: char): char {
    if 'A' <= c <= 'Z' then (c as int + 32) as char else c
  }

  function Lower(s: string): (t: string)
    ensures |t| == |s|
    ensures forall i :: 0 <= i < |s| ==> t[i] == LowerChar(s[i])
  {
    seq(|s|, i requires 0 <= i < |s| => LowerChar(s[i]))
  }

  /** `w` occurs in `s` starting at index `i`. */
  predicate OccursAt(s: string, w: string, i: nat) {
    i + |w| <= |s| && s[i..i + |w|] == w
  }

  /** `s.includes(w)`: `w` occurs in `s` as a contiguous substring. */
  predicate Contains(s: string, w: string) {
    exists i: nat | i <= |s| :: OccursAt(s, w, i)
  }

  /** An occurrence inside an occurrence is an occurrence. */
  lemma OccursWithin(s: string, w: string, v: string, i: nat, j: nat)
    requires OccursAt(s, w, i) && OccursAt(w, v, j)
    ensures OccursAt(s, v, i + j)
  {
    var t := s[i..i + |w|];
    assert t == w;
    forall k | 0 <= k < |v| ensures s[i + j + k] == v[k] {
      assert s[i + j + k] == t[j + k] == w[j + k];
    }
    assert s[i + j..i + j + |v|] == v;
  }

  /** The characters `String.prototype.trim` removes: white space and line
      terminators of the ECMAScript grammar. */
  predicate IsSpace(c: char) {
    var n := c as int;
    n == 0x09 || n == 0x0A || n == 0x0B || n == 0x0C || n == 0x0D || n == 0x20
    || n == 0xA0 || n == 0x1680 || (0x2000 <= n <= 0x200A) || n == 0x2028
    || n == 0x2029 || n == 0x202F || n == 0x205F || n == 0x3000 || n == 0xFEFF
  }

  /** Every character is white space. */
  predicate AllSpace(s: string) {
    forall i :: 0 <= i < |s| ==> IsSpace(s[i])
  }

  /** Drops the leading white space: the result is the longest suffix that
      does not start with white space. */
  function TrimStart(s: string): (t: string)
    ensures |t| <= |s| && t == s[|s| - |t|..]
    ensures forall i :: 0 <= i < |s| - |t| ==> IsSpace(s[i])
    ensures t != [] ==> !IsSpace(t[0])
    decreases |s|
  {
    if |s| > 0 && IsSpace(s[0]) then TrimStart(s[1..]) else s
  }

  /** Drops the trailing white space: the result is the longest prefix that
      does not end with white space. */
  function TrimEnd(s: string): (t: string)
    ensures |t| <= |s| && t == s[..|t|]
    ensures forall i :: |t| <= i < |s| ==> IsSpace(s[i])
    ensures t != [] ==> !IsSpace(t[|t| - 1])
    decreases |s|
  {
    if |s| > 0 && IsSpace(s[|s| - 1]) then TrimEnd(s[..|s| - 1]) else s
  }

  /** `s.trim()`. */
  function Trim(s: string): (t: string)
    ensures t == "" <==> forall i :: 0 <= i < |s| ==> IsSpace(s[i])
    ensures t != "" ==> !IsSpace(t[0]) && !IsSpace(t[|t| - 1])
    ensures exists k: nat :: OccursAt(s, t, k)
  {
    var u := TrimStart(s);
    var t := TrimEnd(u);
    SpacePrefix(s, |s| - |u|);
    SpaceSuffix(u, |t|);
    TrimEdges(s, u, t);
    t
  }

  /** Leading white space, then `u`; `u` is `t`, then trailing white space. */
  lemma TrimEdges(s: string, u: string, t: string)
    requires |u| <= |s| && u == s[|s| - |u|..] && AllSpace(s[..|s| - |u|])
    requires u != [] ==> !IsSpace(u[0])
    requires |t| <= |u| && t == u[..|t|] && AllSpace(u[|t|..])
    requires t != [] ==> !IsSpace(t[|t| - 1])
    ensures t == "" <==> AllSpace(s)
    ensures t != "" ==> !IsSpace(t[0]) && !IsSpace(t[|t| - 1])
    ensures var k := |s| - |u|;
      OccursAt(s, t, k) && AllSpace(s[..k]) && AllSpace(s[k + |t|..])
      && s == s[..k] + t + s[k + |t|..]
  {
    var k := |s| - |u|;
    assert s[k..k + |t|] == t;
    SplitAt(s, k, k + |t|);
    assert s[k + |t|..] == u[|t|..];
    if t == "" {
      assert u == "";
      assert s == s[..k];
    } else {
      assert s[k] == t[0];
    }
  }

  lemma SpacePrefix(s: string, k: nat)
    requires k <= |s| && forall i :: 0 <= i < k ==> IsSpace(s[i])
    ensures AllSpace(s[..k])
  {
    assert forall i :: 0 <= i < k ==> s[..k][i] == s[i];
  }

  lemma SpaceSuffix(s: string, k: nat)
    requires k <= |s| && forall i :: k <= i < |s| ==> IsSpace(s[i])
    ensures AllSpace(s[k..])
  {
    assert forall i :: 0 <= i < |s| - k ==> s[k..][i] == s[k + i];
  }

  lemma SplitAt<T>(s: seq<T>, a: nat, b: nat)
    requires a <= b <= |s|
    ensures s == s[..a] + s[a..b] + s[b..]
  {}

  /** `trim` removes white space at the two ends of a string and nowhere
      else: the string is white space, the trimmed text, white space. */
  lemma TrimParts(s: string) returns (lead: string, trail: string)
    ensures s == lead + Trim(s) + trail
    ensures AllSpace(lead) && AllSpace(trail)
  {
    var u := TrimStart(s);
    var t := TrimEnd(u);
    assert t == Trim(s);
    var k := |s| - |u|;
    SpacePrefix(s, k);
    SpaceSuffix(u, |t|);
    TrimEdges(s, u, t);
    lead, trail := s[..k], s[k + |t|..];
  }

  /** `s.replace(/c/g, r)`: every occurrence of `c` replaced by `r`. */
  function ReplaceAll(s: string, c: char, r: string): string
    decreases |s|
  {
    if s == [] then [] else (if s[0] == c then r else [s[0]]) + ReplaceAll(s[1..], c, r)
  }

  /** Number of occurrences of `c` in `s`. */
  function Count(s: string, c: char): nat
    decreases |s|
  {
    if s == [] then 0 else (if s[0] == c then 1 else 0) + Count(s[1..], c)
  }

  lemma {:induction false} CountConcat(a: string, b: string, c: char)
    ensures Count(a + b, c) == Count(a, c) + Count(b, c)
    decreases |a|
  {
    if a != [] {
      assert (a + b)[1..] == a[1..] + b;
      CountConcat(a[1..], b, c);
    } else {
      assert a + b == b;
    }
  }

  lemma {:induction false} ReplaceAllConcat(a: string, b: string, c: char, r: string)
    ensures ReplaceAll(a + b, c, r) == ReplaceAll(a, c, r) + ReplaceAll(b, c, r)
    decreases |a|
  {
    if a != [] {
      assert (a + b)[0] == a[0];
      assert (a + b)[1..] == a[1..] + b;
      ReplaceAllConcat(a[1..], b, c, r);
    } else {
      assert a + b == b;
    }
  }

  /** Replacing a character that does not occur changes nothing. */
  lemma {:induction false} ReplaceAllAbsent(s: string, c: char, r: string)
    requires c !in s
    ensures ReplaceAll(s, c, r) == s
    decreases |s|
  {
    if s != [] {
      assert s == [s[0]] + s[1..];
      ReplaceAllAbsent(s[1..], c, r);
    }
  }
}

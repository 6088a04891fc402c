/**
 * The JavaScript string primitives the application relies on, restricted to
 * ASCII: `toLowerCase`, `trim`, `includes`, `indexOf`, `replace` with a string
 * pattern (first occurrence only), `replace` with a global literal regular
 * expression (every non-overlapping occurrence, left to right) and `join`.
 */
module Text {
  import opened Wrappers

  /** JavaScript truthiness of an optional string: `null`, `undefined` and `""` are falsy. */
  predicate IsFalsy(s: Option<string>) { s.None? || s.value == [] }

  // ---------------------------------------------------------------------------
  // Letter case

  predicate IsUpper(c: char) { 'A' <= c <= 'Z' }

  predicate IsLowerCase(s: string) { forall i :: 0 <= i < |s| ==> !IsUpper(s[i]) }

  /** `toLowerCase` on one ASCII character. */
  function Lower(c: char): (r: char)
    ensures !IsUpper(r)
    ensures IsUpper(c) ==> r as int == c as int + 32
    ensures !IsUpper(c) ==> r == c
  {
    if IsUpper(c) then (c as int + 32) as char else c
  }

  /** `String.prototype.toLowerCase` on ASCII text. */
  function ToLower(s: string): (r: string)
    ensures |r| == |s|
  {
    seq(|s|, i requires 0 <= i < |s| => Lower(s[i]))
  }

  /** Lower-casing leaves no upper-case letter and changes nothing else. */
  lemma ToLowerSpec(s: string)
    ensures IsLowerCase(ToLower(s))
    ensures forall i :: 0 <= i < |s| && !IsUpper(s[i]) ==> ToLower(s)[i] == s[i]
    ensures IsLowerCase(s) ==> ToLower(s) == s
  {
  }

  lemma ToLowerConcat(a: string, b: string)
    ensures ToLower(a + b) == ToLower(a) + ToLower(b)
  {
  }

  // ---------------------------------------------------------------------------
  // Whitespace and trimming

  /** ASCII whitespace as `trim` sees it: space, tab, line feed, vertical tab, form feed, carriage return. */
  predicate IsSpace(c: char) { c == ' ' || '\t' <= c <= '\r' }

  predicate AllSpace(s: string) { forall i :: 0 <= i < |s| ==> IsSpace(s[i]) }

  /** No whitespace at either end. */
  predicate IsTrimmed(s: string) { s == [] || (!IsSpace(s[0]) && !IsSpace(s[|s| - 1])) }

  /** The index of the first non-whitespace character at or after `i`, or `|s|`. */
  function SkipSpace(s: string, i: nat): (k: nat)
    requires i <= |s|
    ensures i <= k <= |s|
    ensures forall j :: i <= j < k ==> IsSpace(s[j])
    ensures k < |s| ==> !IsSpace(s[k])
    decreases |s| - i
  {
    if i == |s| || !IsSpace(s[i]) then i else SkipSpace(s, i + 1)
  }

  /** Scanning back from `e`, the index just past the last non-whitespace character at or after `lo`. */
  function SkipSpaceBack(s: string, lo: nat, e: nat): (k: nat)
    requires lo <= e <= |s|
    ensures lo <= k <= e
    ensures forall j :: k <= j < e ==> IsSpace(s[j])
    ensures k > lo ==> !IsSpace(s[k - 1])
    decreases e
  {
    if e == lo || !IsSpace(s[e - 1]) then e else SkipSpaceBack(s, lo, e - 1)
  }

  /** `String.prototype.trim`: drops whitespace at both ends. */
  function Trim(s: string): (r: string)
    ensures |r| <= |s| && IsTrimmed(r)
  {
    var a := SkipSpace(s, 0);
    var b := SkipSpaceBack(s, a, |s|);
    s[a..b]
  }

  /** `s[a..b]` with only whitespace outside it and none at its ends. */
  predicate IsTrimOf(s: string, a: int, b: int)
  {
    0 <= a <= b <= |s| &&
    (forall j :: 0 <= j < a ==> IsSpace(s[j])) &&
    (forall j :: b <= j < |s| ==> IsSpace(s[j])) &&
    (a < b ==> !IsSpace(s[a]) && !IsSpace(s[b - 1]))
  }

  /** The trimmed text is the slice of `s` between its leading and its trailing whitespace. */
  lemma TrimSpec(s: string) returns (a: int, b: int)
    ensures IsTrimOf(s, a, b) && Trim(s) == s[a..b]
  {
    a := SkipSpace(s, 0);
    b := SkipSpaceBack(s, a, |s|);
  }

  /** There is only one way to cut whitespace off both ends, and `Trim` takes it. */
  lemma TrimUnique(s: string, a: int, b: int)
    requires IsTrimOf(s, a, b)
    ensures Trim(s) == s[a..b]
  {
    var a' := SkipSpace(s, 0);
    var b' := SkipSpaceBack(s, a', |s|);
    if a < b {
      assert a' == a;
      assert b' == b;
    } else {
      assert a' == |s|;
    }
  }

  lemma TrimOfSpace(s: string)
    requires AllSpace(s)
    ensures Trim(s) == []
  {
    TrimUnique(s, 0, 0);
  }

  lemma TrimOfTrimmed(s: string)
    requires IsTrimmed(s)
    ensures Trim(s) == s
  {
    TrimUnique(s, 0, |s|);
  }

  /** Whitespace padding shifts the cut points of a trim by the length of the left padding. */
  lemma TrimOfPadded(pre: string, s: string, post: string, a: int, b: int)
    requires AllSpace(pre) && AllSpace(post) && IsTrimOf(s, a, b)
    ensures IsTrimOf(pre + s + post, |pre| + a, |pre| + b)
  {
    var u := pre + s + post;
    var n := |pre|;
    forall j | 0 <= j < n + a ensures IsSpace(u[j]) {
      if j < n { assert u[j] == pre[j]; } else { assert u[j] == s[j - n]; }
    }
    forall j | n + b <= j < |u| ensures IsSpace(u[j]) {
      if j < n + |s| { assert u[j] == s[j - n]; } else { assert u[j] == post[j - n - |s|]; }
    }
    if a < b {
      assert u[n + a] == s[a];
      assert u[n + b - 1] == s[b - 1];
    }
  }

  lemma SliceOfPadded(pre: string, s: string, post: string, a: int, b: int)
    requires 0 <= a <= b <= |s|
    ensures (pre + s + post)[|pre| + a..|pre| + b] == s[a..b]
  {
    var u := pre + s + post;
    forall j | |pre| + a <= j < |pre| + b ensures u[j] == s[j - |pre|] {
    }
  }

  /** Trimming padded text cuts at the trim points of `s`, shifted by the left padding. */
  lemma TrimOfPaddedSlice(pre: string, s: string, post: string, a: int, b: int)
    requires AllSpace(pre) && AllSpace(post) && IsTrimOf(s, a, b)
    ensures Trim(pre + s + post) == s[a..b]
  {
    TrimOfPadded(pre, s, post, a, b);
    TrimUnique(pre + s + post, |pre| + a, |pre| + b);
    SliceOfPadded(pre, s, post, a, b);
  }

  /** `trim` ignores whitespace added at either end. */
  lemma TrimPadding(pre: string, s: string, post: string)
    requires AllSpace(pre) && AllSpace(post)
    ensures Trim(pre + s + post) == Trim(s)
  {
    var a, b := TrimSpec(s);
    TrimOfPaddedSlice(pre, s, post, a, b);
  }

  // ---------------------------------------------------------------------------
  // Substring search

  /** `p` occurs in `s` starting at index `k`. */
  predicate OccursAt(s: string, p: string, k: int)
  {
    0 <= k && k + |p| <= |s| && s[k..k + |p|] == p
  }

  /** `String.prototype.includes`. */
  predicate Contains(s: string, p: string)
  {
    exists k :: 0 <= k <= |s| - |p| && OccursAt(s, p, k)
  }

  lemma ContainsEmpty(s: string)
    ensures Contains(s, [])
  {
    assert OccursAt(s, [], 0);
  }

  lemma ContainsSelf(s: string)
    ensures Contains(s, s)
  {
    assert OccursAt(s, s, 0);
  }

  /** Each side of a concatenation is contained in it. */
  lemma ContainsConcat(a: string, b: string)
    ensures Contains(a + b, a) && Contains(a + b, b)
  {
    assert (a + b)[..|a|] == a;
    assert (a + b)[|a|..] == b;
    assert OccursAt(a + b, a, 0);
    assert OccursAt(a + b, b, |a|);
  }

  /** A pattern holding a character that `s` lacks does not occur in `s`. */
  lemma NotContainsChar(s: string, p: string, c: char)
    requires c in p && c !in s
    ensures !Contains(s, p)
  {
  }

  /**
   * A pattern whose first character occurs in `s` only at `a`, and whose
   * character `m` differs from `s[a + m]`, does not occur in `s`.
   */
  lemma NotContainsFrom(s: string, p: string, a: int, m: int)
    requires 0 <= m < |p| && 0 <= a && a + m < |s| && s[a + m] != p[m]
    requires forall i :: 0 <= i < |s| && i != a ==> s[i] != p[0]
    ensures !Contains(s, p)
  {
    forall k | 0 <= k <= |s| - |p| ensures !OccursAt(s, p, k) {
      var w := s[k..k + |p|];
      assert w[0] == s[k] && w[m] == s[k + m];
    }
  }

  /**
   * Two strings contain neither each other nor are equal when each has a
   * character the other lacks, or (on either side) is strictly the longer one.
   */
  lemma NeitherContains(s: string, t: string, c: char, d: char)
    requires |s| > |t| || (c in s && forall i :: 0 <= i < |t| ==> t[i] != c)
    requires |t| > |s| || (d in t && forall i :: 0 <= i < |s| ==> s[i] != d)
    ensures s != t && !Contains(s, t) && !Contains(t, s)
  {
    if |s| <= |t| {
      NotContainsChar(t, s, c);
    }
    if |t| <= |s| {
      NotContainsChar(s, t, d);
    }
  }

  /** A character that is not an upper-case letter survives lower-casing. */
  lemma CharInLower(s: string, c: char)
    requires c in s && !IsUpper(c)
    ensures c in ToLower(s)
  {
    var i :| 0 <= i < |s| && s[i] == c;
    assert ToLower(s)[i] == c;
  }

  /** A string contained in a slice of `s` is contained in `s`. */
  lemma ContainsInSlice(s: string, a: int, b: int, p: string)
    requires 0 <= a <= b <= |s| && Contains(s[a..b], p)
    ensures Contains(s, p)
  {
    var k :| 0 <= k <= b - a - |p| && OccursAt(s[a..b], p, k);
    forall i | 0 <= i < |p| ensures s[a + k..a + k + |p|][i] == p[i] {
      assert p[i] == s[a..b][k..k + |p|][i] == s[a..b][k + i];
    }
    assert OccursAt(s, p, a + k);
  }

  /** Containment is transitive. */
  lemma ContainsTrans(s: string, t: string, p: string)
    requires Contains(s, t) && Contains(t, p)
    ensures Contains(s, p)
  {
    var k :| 0 <= k <= |s| - |t| && OccursAt(s, t, k);
    ContainsInSlice(s, k, k + |t|, p);
  }

  /** An occurrence of `p` not at index 0 is an occurrence in `s[1..]`. */
  lemma ContainsTail(s: string, p: string)
    requires Contains(s, p) && !OccursAt(s, p, 0)
    ensures Contains(s[1..], p)
  {
    var k :| 0 <= k <= |s| - |p| && OccursAt(s, p, k);
    assert k != 0;
    forall i | 0 <= i < |p| ensures s[1..][k - 1..k - 1 + |p|][i] == p[i] {
      assert p[i] == s[k..k + |p|][i] == s[k + i];
    }
    assert OccursAt(s[1..], p, k - 1);
  }

  /** Character-by-character comparison of `p[j..]` with `s[i + j..]`; used to evaluate searches on literals. */
  predicate MatchFrom(s: string, p: string, i: nat, j: nat)
    decreases |p| - j
  {
    j >= |p| || (i + j < |s| && s[i + j] == p[j] && MatchFrom(s, p, i, j + 1))
  }

  lemma {:induction false} MatchFromIff(s: string, p: string, i: nat, j: nat)
    requires i + |p| <= |s| && j <= |p|
    ensures MatchFrom(s, p, i, j) <==> forall m :: j <= m < |p| ==> s[i + m] == p[m]
    decreases |p| - j
  {
    if j < |p| {
      MatchFromIff(s, p, i, j + 1);
    }
  }

  lemma MatchIffOccurs(s: string, p: string, i: nat)
    requires i + |p| <= |s|
    ensures MatchFrom(s, p, i, 0) <==> OccursAt(s, p, i)
  {
    MatchFromIff(s, p, i, 0);
    if forall m :: 0 <= m < |p| ==> s[i + m] == p[m] {
      assert s[i..i + |p|] == p;
    }
  }

  /** `indexOf(p, i)`: the first index at or after `i` where `p` occurs. */
  function IndexOfFrom(s: string, p: string, i: nat): (r: Option<nat>)
    ensures r.Some? ==> i <= r.value && OccursAt(s, p, r.value)
    ensures r.Some? ==> forall k :: i <= k < r.value ==> !OccursAt(s, p, k)
    ensures r.None? ==> forall k :: i <= k ==> !OccursAt(s, p, k)
    decreases |s| - i
  {
    if i + |p| > |s| then None
    else if MatchFrom(s, p, i, 0) then
      MatchIffOccurs(s, p, i);
      Some(i)
    else
      MatchIffOccurs(s, p, i);
      IndexOfFrom(s, p, i + 1)
  }

  /** `String.prototype.indexOf`, with `None` for -1. */
  function IndexOf(s: string, p: string): (r: Option<nat>)
    ensures r.None? <==> !Contains(s, p)
    ensures r.Some? ==> OccursAt(s, p, r.value) && forall k :: 0 <= k < r.value ==> !OccursAt(s, p, k)
  {
    IndexOfFrom(s, p, 0)
  }

  // ---------------------------------------------------------------------------
  // Replacement

  /** `s.replace(p, q)` with a string pattern: only the first occurrence of `p` is rewritten. */
  function ReplaceFirst(s: string, p: string, q: string): (r: string)
    ensures !Contains(s, p) ==> r == s
    ensures Contains(s, p) ==>
      exists k :: OccursAt(s, p, k) && (forall j :: 0 <= j < k ==> !OccursAt(s, p, j)) &&
        r == s[..k] + q + s[k + |p|..]
  {
    match IndexOf(s, p)
    case None => s
    case Some(k) => s[..k] + q + s[k + |p|..]
  }

  /**
   * `s.replace(/p/g, '')` for a literal pattern `p`: scanning left to right, every
   * occurrence that starts where the scan stands is deleted and the scan resumes
   * after it; otherwise one character is kept.
   */
  function RemoveAll(s: string, p: string): (r: string)
    requires p != []
    ensures |r| <= |s|
    ensures !Contains(s, p) ==> r == s
    ensures Contains(s, p) ==> |r| <= |s| - |p|
    decreases |s|
  {
    if s == [] then []
    else if OccursAt(s, p, 0) then RemoveAll(s[|p|..], p)
    else
      var rest := RemoveAll(s[1..], p);
      assert !Contains(s, p) ==> !Contains(s[1..], p) by {
        if Contains(s[1..], p) { assert s[1..] == s[1..|s|]; ContainsInSlice(s, 1, |s|, p); }
      }
      assert Contains(s, p) ==> Contains(s[1..], p) by {
        if Contains(s, p) { ContainsTail(s, p); }
      }
      assert !Contains(s, p) ==> [s[0]] + s[1..] == s;
      [s[0]] + rest
  }

  // ---------------------------------------------------------------------------
  // Joining

  /** `Array.prototype.join(sep)` on strings. */
  function Join(parts: seq<string>, sep: string): (r: string)
    ensures parts == [] ==> r == []
    ensures |parts| == 1 ==> r == parts[0]
  {
    if parts == [] then []
    else if |parts| == 1 then parts[0]
    else parts[0] + sep + Join(parts[1..], sep)
  }
}

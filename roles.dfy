/**
 * The role normaliser shared by the three recommendation matchers
 * (`getRecommendedJobs`, `getRecommendedKeywords`, `getRecommendedProjects`),
 * which each spell out the same expression
 * `role.toLowerCase().trim().replace('fullstack', 'full stack')`.
 */
module Roles {
  import opened Wrappers
  import opened Text

  /** The spelling `replace` looks for, and the one it writes instead. */
  const FullStackJoined: string := "fullstack"
  const FullStackSpaced: string := "full stack"

  lemma ReplaceFirstKeepsLowerCase(s: string, p: string, q: string)
    requires IsLowerCase(s) && IsLowerCase(q)
    ensures IsLowerCase(ReplaceFirst(s, p, q))
  {
    var o := IndexOf(s, p);
    if o.Some? {
      var k := o.value;
      var r := ReplaceFirst(s, p, q);
      assert r == s[..k] + q + s[k + |p|..];
      forall i | 0 <= i < |r| ensures !IsUpper(r[i]) {
        if i < k { assert r[i] == s[i]; }
        else if i < k + |q| { assert r[i] == q[i - k]; }
        else { assert r[i] == s[i - |q| + |p|]; }
      }
    }
  }

  lemma TrimLowerCase(s: string)
    ensures IsLowerCase(Trim(ToLower(s)))
  {
    ToLowerSpec(s);
    var a, b := TrimSpec(ToLower(s));
    assert forall i :: 0 <= i < b - a ==> Trim(ToLower(s))[i] == ToLower(s)[a + i];
  }

  lemma ReplaceFirstKeepsTrimmed(s: string, p: string, q: string)
    requires IsTrimmed(s) && p != [] && q != [] && !IsSpace(q[0]) && !IsSpace(q[|q| - 1])
    ensures IsTrimmed(ReplaceFirst(s, p, q))
  {
    var o := IndexOf(s, p);
    if o.Some? {
      var k := o.value;
      var r := ReplaceFirst(s, p, q);
      assert r == s[..k] + q + s[k + |p|..];
      assert r[0] == if k == 0 then q[0] else s[0];
      assert r[|r| - 1] == if k + |p| == |s| then q[|q| - 1] else s[|s| - 1];
    }
  }

  /**
   * `role.toLowerCase().trim().replace('fullstack', 'full stack')`: lower-cased,
   * trimmed, and with the FIRST `fullstack` (only) spelt `full stack`.
   */
  function Normalize(role: string): (r: string)
    ensures IsLowerCase(r) && IsTrimmed(r)
    ensures !Contains(Trim(ToLower(role)), FullStackJoined) ==> r == Trim(ToLower(role))
  {
    var t := Trim(ToLower(role));
    TrimLowerCase(ToLower(role));
    ReplaceFirstKeepsTrimmed(t, FullStackJoined, FullStackSpaced);
    ReplaceFirstKeepsLowerCase(t, FullStackJoined, FullStackSpaced);
    ReplaceFirst(t, FullStackJoined, FullStackSpaced)
  }

  /** `job.title.toLowerCase().replace('fullstack', 'full stack')`: job titles are NOT trimmed. */
  function NormalizeTitle(title: string): (r: string)
    ensures IsLowerCase(r)
    ensures !Contains(ToLower(title), FullStackJoined) ==> r == ToLower(title)
  {
    ToLowerSpec(title);
    ReplaceFirstKeepsLowerCase(ToLower(title), FullStackJoined, FullStackSpaced);
    ReplaceFirst(ToLower(title), FullStackJoined, FullStackSpaced)
  }

  lemma ToLowerKeepsSpace(s: string)
    requires AllSpace(s)
    ensures ToLower(s) == s
  {
    ToLowerSpec(s);
  }

  /** The normalised role depends neither on letter case nor on whitespace around the role. */
  lemma {:induction false} NormalizeIgnoresCaseAndPadding(pre: string, a: string, b: string, post: string)
    requires AllSpace(pre) && AllSpace(post) && ToLower(a) == ToLower(b)
    ensures Normalize(pre + a + post) == Normalize(b)
  {
    ToLowerConcat(pre + a, post);
    ToLowerConcat(pre, a);
    ToLowerKeepsSpace(pre);
    ToLowerKeepsSpace(post);
    TrimPadding(pre, ToLower(a), post);
  }

  /** A role made only of whitespace normalises to the empty string. */
  lemma {:induction false} BlankRoleNormalizesToEmpty(role: string)
    requires AllSpace(role)
    ensures Normalize(role) == []
  {
    ToLowerKeepsSpace(role);
    TrimOfSpace(role);
  }

  /** Normalising twice changes nothing once no `fullstack` is left after the first pass. */
  lemma {:induction false} NormalizeIdempotentWithoutResidue(role: string)
    requires !Contains(Normalize(role), FullStackJoined)
    ensures Normalize(Normalize(role)) == Normalize(role)
  {
    var n := Normalize(role);
    ToLowerSpec(n);
    TrimOfTrimmed(n);
  }

  /** When `p` occurs, replacing its first occurrence by `q` changes the length by `|q| - |p|`. */
  lemma ReplaceFirstLength(s: string, p: string, q: string)
    requires Contains(s, p)
    ensures |ReplaceFirst(s, p, q)| == |s| - |p| + |q|
  {
  }

  /**
   * Normalising a normalised role changes it exactly when a `fullstack` is left
   * over from the first pass (the second pass then rewrites that one, one character longer).
   */
  lemma {:induction false} NormalizeIdempotentIff(role: string)
    ensures Normalize(Normalize(role)) == Normalize(role) <==> !Contains(Normalize(role), FullStackJoined)
  {
    var n := Normalize(role);
    ToLowerSpec(n);
    TrimOfTrimmed(n);
    if Contains(n, FullStackJoined) {
      ReplaceFirstLength(n, FullStackJoined, FullStackSpaced);
    }
  }

  /** An occurrence at index 0 is the first one, so it is the one `replace` rewrites. */
  lemma ReplaceFirstAtStart(s: string, p: string, q: string)
    requires OccursAt(s, p, 0)
    ensures ReplaceFirst(s, p, q) == q + s[|p|..]
  {
    assert Contains(s, p);
    assert IndexOf(s, p) == Some(0);
  }

  /**
   * A role whose lower-cased form has no whitespace at either end and lacks a
   * letter of `fullstack` normalises to its lower-cased form.
   */
  lemma NormalizeOfPlainRole(role: string, n: string, c: char)
    requires ToLower(role) == n && n != [] && !IsSpace(n[0]) && !IsSpace(n[|n| - 1])
    requires c in FullStackJoined && forall i :: 0 <= i < |n| ==> n[i] != c
    ensures Normalize(role) == n
  {
    TrimOfTrimmed(n);
    NotContainsChar(n, FullStackJoined, c);
  }

  /** On text that is already lower-case and trimmed, normalising is just the `fullstack` rewrite. */
  lemma NormalizeOfNormalText(s: string)
    requires IsLowerCase(s) && IsTrimmed(s)
    ensures Normalize(s) == ReplaceFirst(s, FullStackJoined, FullStackSpaced)
  {
    ToLowerSpec(s);
    TrimOfTrimmed(s);
  }

  lemma FullStackTwice()
    ensures IsLowerCase(FullStackJoined + FullStackJoined)
    ensures IsTrimmed(FullStackJoined + FullStackJoined)
    ensures OccursAt(FullStackJoined + FullStackJoined, FullStackJoined, 0)
    ensures (FullStackJoined + FullStackJoined)[|FullStackJoined|..] == FullStackJoined
  {
    var p := FullStackJoined;
    assert p == "fullstack";
    assert |p| == 9 && p[0] == 'f' && p[8] == 'k' && IsLowerCase(p);
    var twice := p + p;
    assert twice[0] == p[0] && twice[17] == p[8];
    assert twice[0..9] == p;
    assert twice[9..] == p;
  }

  /**
   * A role with two `fullstack`s keeps the second one after normalising, so
   * normalisation is not idempotent in general: `"fullstackfullstack"`
   * normalises to `"full stackfullstack"`.
   */
  lemma {:induction false} NormalizeLeavesSecondFullStack()
    ensures Normalize(FullStackJoined + FullStackJoined) == FullStackSpaced + FullStackJoined
    ensures Normalize(Normalize(FullStackJoined + FullStackJoined)) != Normalize(FullStackJoined + FullStackJoined)
  {
    var p, q := FullStackJoined, FullStackSpaced;
    var twice := p + p;
    FullStackTwice();
    NormalizeOfNormalText(twice);
    ReplaceFirstAtStart(twice, p, q);
    ContainsConcat(q, p);
    NormalizeIdempotentIff(twice);
  }
}

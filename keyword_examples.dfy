/**
 * Worked examples of `getRecommendedKeywords` (ai-resume-analyzer-main/src/data/keywords.js)
 * on the keyword table: a role reached through an alias, an alias matching
 * inside an unrelated word, and a role that gets nothing.
 *
 * As in the job example, the lemmas about a normalised role take it as a
 * parameter fixed by `requires` and are applied to `Normalize(role)`.
 */
module KeywordExamples {
  import opened Wrappers
  import opened Text
  import opened Seqs
  import opened Roles
  import opened Keywords

  /**
   * A group role and `n` do not match when a character `c` of the role (not an
   * upper-case letter) is missing from `n`, or the role is longer than `n`; and
   * when a character `d` of `n` is missing from the lower-cased role in both
   * cases, or `n` is longer than the role.
   */
  lemma NoRoleMatchBy(n: string, groupRole: string, c: char, d: char)
    requires |groupRole| > |n| || (c in groupRole && !IsUpper(c) && forall i :: 0 <= i < |n| ==> n[i] != c)
    requires |n| > |groupRole| || (d in n && forall i :: 0 <= i < |groupRole| ==> Lower(groupRole[i]) != d)
    ensures !RoleMatch(n, groupRole)
  {
    if |groupRole| <= |n| {
      CharInLower(groupRole, c);
    }
    NeitherContains(ToLower(groupRole), n, c, d);
  }

  /** A role that matches none of the nine group roles matches no group of the table directly. */
  lemma NoGroupOfNine(n: string)
    requires !RoleMatch(n, "Full Stack Developer")
    requires !RoleMatch(n, "MERN Stack Developer")
    requires !RoleMatch(n, "Frontend Developer")
    requires !RoleMatch(n, "Backend Developer")
    requires !RoleMatch(n, "AI/ML Engineer")
    requires !RoleMatch(n, "Data Scientist")
    requires !RoleMatch(n, "DevOps Engineer")
    requires !RoleMatch(n, "Product Manager")
    requires !RoleMatch(n, "Data Analyst")
    ensures forall j :: 0 <= j < |KeywordGroups| ==> !DirectMatch(n, KeywordGroups[j])
  {
  }

  /** A role holding none of the ten alias keys holds no key of the alias table. */
  lemma NoKeyOfTen(n: string)
    requires !Contains(n, "mern")
    requires !Contains(n, "full stack")
    requires !Contains(n, "frontend")
    requires !Contains(n, "backend")
    requires !Contains(n, "ai")
    requires !Contains(n, "ml")
    requires !Contains(n, "data scientist")
    requires !Contains(n, "data analyst")
    requires !Contains(n, "devops")
    requires !Contains(n, "product")
    ensures forall j :: 0 <= j < |RoleKeys| ==> !Contains(n, RoleKeys[j].key)
  {
  }

  /** `GroupNamed` finds group `t` when it is the first group whose role is `target`. */
  lemma GroupNamedIs(target: string, t: nat)
    requires t < |KeywordGroups| && KeywordGroups[t].role == target
    requires forall j :: 0 <= j < t ==> KeywordGroups[j].role != target
    ensures GroupNamed(KeywordGroups, target) == Some(t)
  {
    FindIndexFirst(KeywordGroups, (g: KeywordGroup) => g.role == target, t);
  }

  // ---------------------------------------------------------------------------
  // "Junior MERN Developer": no group matches directly, the alias `mern` does.

  /** "Junior MERN Developer" normalises to "junior mern developer". */
  lemma JuniorMernNormalized()
    ensures Normalize("Junior MERN Developer") == "junior mern developer"
  {
    var role := "Junior MERN Developer";
    var n := "junior mern developer";
    assert ToLower(role) == n;
    assert n[0] == 'j' && n[|n| - 1] == 'r';
    assert forall i :: 0 <= i < |n| ==> n[i] != 'f';
    NormalizeOfPlainRole(role, n, 'f');
  }

  /** The witness characters: those missing from "junior mern developer". */
  lemma JuniorMernCharacters(n: string)
    requires n == "junior mern developer"
    ensures forall i :: 0 <= i < |n| ==> n[i] != '/' && n[i] != 'a' && n[i] != 'k' && n[i] != 's' && n[i] != 't'
  {
  }

  /** "junior mern developer" is longer than every group role, and each role has a character it lacks. */
  lemma JuniorMernNoDirect(n: string)
    requires n == "junior mern developer"
    ensures forall j :: 0 <= j < |KeywordGroups| ==> !DirectMatch(n, KeywordGroups[j])
  {
    JuniorMernCharacters(n);
    NoRoleMatchBy(n, "Full Stack Developer", 'k', ' ');
    NoRoleMatchBy(n, "MERN Stack Developer", 'k', ' ');
    NoRoleMatchBy(n, "Frontend Developer", 't', ' ');
    NoRoleMatchBy(n, "Backend Developer", 'a', ' ');
    NoRoleMatchBy(n, "AI/ML Engineer", '/', ' ');
    NoRoleMatchBy(n, "Data Scientist", 'a', ' ');
    NoRoleMatchBy(n, "DevOps Engineer", 's', ' ');
    NoRoleMatchBy(n, "Product Manager", 'a', ' ');
    NoRoleMatchBy(n, "Data Analyst", 'a', ' ');
    NoGroupOfNine(n);
  }

  /** "junior mern developer" holds the first alias, `mern`. */
  lemma JuniorMernAlias(n: string)
    requires n == "junior mern developer"
    ensures Contains(n, RoleKeys[0].key)
  {
    var key := RoleKeys[0].key;
    assert key == "mern";
    assert n[7..11] == key;
    assert OccursAt(n, key, 7);
  }

  /** The alias `mern` targets the group at position 1. */
  lemma MernTarget()
    ensures GroupNamed(KeywordGroups, RoleKeys[0].target) == Some(1)
  {
    GroupNamedIs(RoleKeys[0].target, 1);
  }

  /** "junior mern developer" gets the MERN Stack Developer keywords through the alias `mern`. */
  lemma JuniorMernKeywordsFor(n: string)
    requires n == "junior mern developer"
    ensures KeywordsFor(KeywordGroups, RoleKeys, n) == MernKeywords
  {
    JuniorMernNoDirect(n);
    JuniorMernAlias(n);
    MernTarget();
    KeywordsForAlias(KeywordGroups, RoleKeys, n, 0);
  }

  /**
   * "Junior MERN Developer" matches no group directly (its words are not the
   * group's words) and reaches the MERN Stack Developer keywords through the
   * first alias, `mern`.
   */
  lemma {:induction false} JuniorMernKeywords()
    ensures RecommendedKeywords(Some("Junior MERN Developer")) == MernKeywords
  {
    var role := "Junior MERN Developer";
    JuniorMernNormalized();
    JuniorMernKeywordsFor(Normalize(role));
  }

  // ---------------------------------------------------------------------------
  // "Email Marketer": the alias `ai` occurs inside "email".

  /** "Email Marketer" normalises to "email marketer". */
  lemma EmailMarketerNormalized()
    ensures Normalize("Email Marketer") == "email marketer"
  {
    var role := "Email Marketer";
    var n := "email marketer";
    assert ToLower(role) == n;
    assert n[0] == 'e' && n[|n| - 1] == 'r';
    assert forall i :: 0 <= i < |n| ==> n[i] != 'f';
    NormalizeOfPlainRole(role, n, 'f');
  }

  /** The witness characters: those missing from "email marketer", and those it holds. */
  lemma EmailMarketerCharacters(n: string)
    requires n == "email marketer"
    ensures forall i :: 0 <= i < |n| ==> n[i] != '/' && n[i] != 's' && n[i] != 'n' && n[i] != 'f' && n[i] != 'b'
    ensures 'i' in n && 'k' in n && 'm' in n
  {
  }

  /** Characters of "email marketer" that the lower-cased group roles lack. */
  lemma EmailMarketerRoleCharacters()
    ensures forall i :: 0 <= i < |"Full Stack Developer"| ==> Lower("Full Stack Developer"[i]) != 'm'
    ensures forall i :: 0 <= i < |"MERN Stack Developer"| ==> Lower("MERN Stack Developer"[i]) != 'i'
    ensures forall i :: 0 <= i < |"Frontend Developer"| ==> Lower("Frontend Developer"[i]) != 'm'
    ensures forall i :: 0 <= i < |"Backend Developer"| ==> Lower("Backend Developer"[i]) != 'm'
    ensures forall i :: 0 <= i < |"AI/ML Engineer"| ==> Lower("AI/ML Engineer"[i]) != 'k'
    ensures forall i :: 0 <= i < |"Data Scientist"| ==> Lower("Data Scientist"[i]) != 'm'
    ensures forall i :: 0 <= i < |"DevOps Engineer"| ==> Lower("DevOps Engineer"[i]) != 'm'
    ensures forall i :: 0 <= i < |"Product Manager"| ==> Lower("Product Manager"[i]) != 'i'
  {
  }

  /** No group role and "email marketer" contain one another: each side has a character the other lacks, or is the longer one. */
  lemma EmailMarketerNoDirect(n: string)
    requires n == "email marketer"
    ensures forall j :: 0 <= j < |KeywordGroups| ==> !DirectMatch(n, KeywordGroups[j])
  {
    EmailMarketerCharacters(n);
    EmailMarketerRoleCharacters();
    NoRoleMatchBy(n, "Full Stack Developer", ' ', 'm');
    NoRoleMatchBy(n, "MERN Stack Developer", ' ', 'i');
    NoRoleMatchBy(n, "Frontend Developer", ' ', 'm');
    NoRoleMatchBy(n, "Backend Developer", ' ', 'm');
    NoRoleMatchBy(n, "AI/ML Engineer", '/', 'k');
    NoRoleMatchBy(n, "Data Scientist", 's', 'm');
    NoRoleMatchBy(n, "DevOps Engineer", ' ', 'm');
    NoRoleMatchBy(n, "Product Manager", ' ', 'i');
    NoRoleMatchBy(n, "Data Analyst", 's', ' ');
    NoGroupOfNine(n);
  }

  /** "email marketer" holds `ai` (in "email") and none of the four alias keys before it. */
  lemma EmailMarketerAliases(n: string)
    requires n == "email marketer"
    ensures Contains(n, RoleKeys[4].key)
    ensures forall j :: 0 <= j < 4 ==> !Contains(n, RoleKeys[j].key)
  {
    EmailMarketerCharacters(n);
    assert n[2..4] == "ai";
    assert OccursAt(n, "ai", 2);
    NotContainsChar(n, "mern", 'n');
    NotContainsChar(n, "full stack", 'f');
    NotContainsChar(n, "frontend", 'f');
    NotContainsChar(n, "backend", 'b');
  }

  /** The alias `ai` targets the group at position 4. */
  lemma AiTarget()
    ensures GroupNamed(KeywordGroups, RoleKeys[4].target) == Some(4)
  {
    GroupNamedIs(RoleKeys[4].target, 4);
  }

  /** "email marketer" gets the AI/ML Engineer keywords through the alias `ai`. */
  lemma EmailMarketerKeywordsFor(n: string)
    requires n == "email marketer"
    ensures KeywordsFor(KeywordGroups, RoleKeys, n) == AiMlKeywords
  {
    EmailMarketerNoDirect(n);
    EmailMarketerAliases(n);
    AiTarget();
    KeywordsForAlias(KeywordGroups, RoleKeys, n, 4);
  }

  /**
   * Aliases match as raw substrings: "Email Marketer" matches no group
   * directly, but contains `ai` and gets the AI/ML Engineer keywords.
   */
  lemma {:induction false} EmailMarketerKeywords()
    ensures RecommendedKeywords(Some("Email Marketer")) == AiMlKeywords
  {
    var role := "Email Marketer";
    EmailMarketerNormalized();
    EmailMarketerKeywordsFor(Normalize(role));
  }

  // ---------------------------------------------------------------------------
  // "Chief Regional Overlord": neither phase finds anything.

  /** "Chief Regional Overlord" normalises to "chief regional overlord". */
  lemma OverlordNormalized()
    ensures Normalize("Chief Regional Overlord") == "chief regional overlord"
  {
    var role := "Chief Regional Overlord";
    var n := "chief regional overlord";
    assert ToLower(role) == n;
    assert n[0] == 'c' && n[|n| - 1] == 'd';
    assert forall i :: 0 <= i < |n| ==> n[i] != 'u';
    NormalizeOfPlainRole(role, n, 'u');
  }

  /** The witness characters: those missing from "chief regional overlord". */
  lemma OverlordCharacters(n: string)
    requires n == "chief regional overlord"
    ensures forall i :: 0 <= i < |n| ==> n[i] != '/' && n[i] != 'k' && n[i] != 'p' && n[i] != 's' && n[i] != 't' && n[i] != 'u'
    ensures forall i :: 0 <= i < |n| ==> n[i] != 'm' && n[i] != 'b' && (i != 12 ==> n[i] != 'a')
    ensures n[12] == 'a' && n[13] == 'l'
  {
  }

  /** "chief regional overlord" is longer than every group role, and each role has a character it lacks. */
  lemma OverlordNoDirect(n: string)
    requires n == "chief regional overlord"
    ensures forall j :: 0 <= j < |KeywordGroups| ==> !DirectMatch(n, KeywordGroups[j])
  {
    OverlordCharacters(n);
    NoRoleMatchBy(n, "Full Stack Developer", 'u', ' ');
    NoRoleMatchBy(n, "MERN Stack Developer", 't', ' ');
    NoRoleMatchBy(n, "Frontend Developer", 't', ' ');
    NoRoleMatchBy(n, "Backend Developer", 'k', ' ');
    NoRoleMatchBy(n, "AI/ML Engineer", '/', ' ');
    NoRoleMatchBy(n, "Data Scientist", 's', ' ');
    NoRoleMatchBy(n, "DevOps Engineer", 'p', ' ');
    NoRoleMatchBy(n, "Product Manager", 'u', ' ');
    NoRoleMatchBy(n, "Data Analyst", 's', ' ');
    NoGroupOfNine(n);
  }

  /** "chief regional overlord" holds none of the alias keys; its only `a` is followed by `l`, not `i`. */
  lemma OverlordNoAlias(n: string)
    requires n == "chief regional overlord"
    ensures forall j :: 0 <= j < |RoleKeys| ==> !Contains(n, RoleKeys[j].key)
  {
    OverlordCharacters(n);
    NotContainsChar(n, "mern", 'm');
    NotContainsChar(n, "full stack", 'u');
    NotContainsChar(n, "frontend", 't');
    NotContainsChar(n, "backend", 'b');
    NotContainsFrom(n, "ai", 12, 1);
    NotContainsChar(n, "ml", 'm');
    NotContainsChar(n, "data scientist", 't');
    NotContainsChar(n, "data analyst", 't');
    NotContainsChar(n, "devops", 'p');
    NotContainsChar(n, "product", 'p');
    NoKeyOfTen(n);
  }

  /** "Chief Regional Overlord" matches no group and contains no alias: it gets no keywords. */
  lemma {:induction false} OverlordKeywords()
    ensures RecommendedKeywords(Some("Chief Regional Overlord")) == []
  {
    var role := "Chief Regional Overlord";
    OverlordNormalized();
    OverlordNoDirect(Normalize(role));
    OverlordNoAlias(Normalize(role));
    NoMatchNoKeywords(role);
  }
}

/**
 * A worked example of `getRecommendedJobs` (ai-resume-analyzer-main/src/data/jobs.js)
 * on the job table: "Frontend Developer" gets the one listing of that title.
 *
 * The lemmas about one normalised role and one title take both as parameters
 * fixed by `requires`, and are applied to the symbolic `Normalize(role)` and
 * `JobTable[j].title`; with the strings written into their contracts the
 * verifier would evaluate the matchers on every literal in scope at once.
 */
module JobExamples {
  import opened Wrappers
  import opened Text
  import opened Seqs
  import opened Roles
  import opened Jobs

  /** A title lacking a character of `fullstack` (in either case) is only lower-cased by `NormalizeTitle`. */
  lemma PlainTitle(title: string, e: char)
    requires e in FullStackJoined && forall i :: 0 <= i < |title| ==> Lower(title[i]) != e
    ensures NormalizeTitle(title) == ToLower(title)
  {
    NotContainsChar(ToLower(title), FullStackJoined, e);
  }

  /**
   * A title whose only `f` starts "full " (with a space, at `a`) holds no
   * `fullstack` either: `NormalizeTitle` only lower-cases it.
   */
  lemma FullStackTitle(title: string, a: nat)
    requires a + 4 < |title| && Lower(title[a + 4]) == ' '
    requires forall i :: 0 <= i < |title| && i != a ==> Lower(title[i]) != 'f'
    ensures NormalizeTitle(title) == ToLower(title)
  {
    var p := FullStackJoined;
    assert p[0] == 'f' && p[4] == 's';
    NotContainsFrom(ToLower(title), p, a, 4);
  }

  /**
   * A title that `NormalizeTitle` only lower-cases does not match `n` when a
   * character `c` of it is missing from `n`, or it is longer than `n`; and a
   * character `d` of `n` is missing from it in both cases, or `n` is longer.
   */
  lemma NoTitleMatchBy(n: string, title: string, c: char, d: char)
    requires NormalizeTitle(title) == ToLower(title)
    requires |title| > |n| || (c in title && !IsUpper(c) && forall i :: 0 <= i < |n| ==> n[i] != c)
    requires |n| > |title| || (d in n && forall i :: 0 <= i < |title| ==> Lower(title[i]) != d)
    ensures !TitleMatches(n, title)
  {
    if |title| <= |n| {
      CharInLower(title, c);
    }
    NeitherContains(ToLower(title), n, c, d);
  }

  /** "Frontend Developer" normalises to "frontend developer". */
  lemma FrontendNormalized()
    ensures Normalize("Frontend Developer") == "frontend developer"
  {
    var role := "Frontend Developer";
    var n := "frontend developer";
    assert ToLower(role) == n;
    assert n[0] == 'f' && n[|n| - 1] == 'r';
    assert forall i :: 0 <= i < |n| ==> n[i] != 'k';
    NormalizeOfPlainRole(role, n, 'k');
  }

  /** The listing titled "Frontend Developer" matches: its normalised title is the role itself. */
  lemma FrontendMatch(n: string, t: string)
    requires n == "frontend developer" && t == "Frontend Developer"
    ensures TitleMatches(n, t)
  {
    PlainTitle(t, 'k');
    assert ToLower(t) == n;
    ContainsSelf(n);
  }

  /*
   * Every other listing's title misses the role, one title per lemma: a
   * character of the shorter one is missing from the other (or its title is
   * the longer), and `PlainTitle` or `FullStackTitle` shows first that
   * `NormalizeTitle` only lower-cases it.
   */

  lemma MissesJob0(n: string, t: string)
    requires n == "frontend developer" && t == "MERN Stack Developer"
    ensures !TitleMatches(n, t)
  {
    PlainTitle(t, 'f');
    assert n[0] == 'f';
    NoTitleMatchBy(n, t, ' ', 'f');
  }

  lemma MissesJob1(n: string, t: string)
    requires n == "frontend developer" && t == "Junior MERN Developer"
    ensures !TitleMatches(n, t)
  {
    PlainTitle(t, 'f');
    assert n[0] == 'f';
    NoTitleMatchBy(n, t, ' ', 'f');
  }

  /**
   * "senior full stack developer" is longer than the role, and the role does
   * not occur in it: its only `f` is followed by `u`, not `r`.
   */
  lemma MissesJob2(n: string, t: string)
    requires n == "frontend developer" && t == "Senior Full Stack Developer"
    ensures !TitleMatches(n, t)
  {
    assert forall i :: 0 <= i < |n| ==> n[i] != 'u';
    FullStackTitle(t, 7);
    NotContainsFrom(ToLower(t), n, 7, 1);
  }

  lemma MissesJob3(n: string, t: string)
    requires n == "frontend developer" && t == "Full Stack Engineer"
    ensures !TitleMatches(n, t)
  {
    assert forall i :: 0 <= i < |t| ==> Lower(t[i]) != 'v';
    FullStackTitle(t, 0);
    assert n[11] == 'v';
    NoTitleMatchBy(n, t, ' ', 'v');
  }

  lemma MissesJob4(n: string, t: string)
    requires n == "frontend developer" && t == "Lead Full Stack Developer"
    ensures !TitleMatches(n, t)
  {
    assert forall i :: 0 <= i < |t| ==> Lower(t[i]) != 'n';
    FullStackTitle(t, 5);
    assert n[3] == 'n';
    NoTitleMatchBy(n, t, ' ', 'n');
  }

  lemma MissesJob5(n: string, t: string)
    requires n == "frontend developer" && t == "Junior Full Stack Dev"
    ensures !TitleMatches(n, t)
  {
    assert forall i :: 0 <= i < |t| ==> Lower(t[i]) != 'p';
    FullStackTitle(t, 7);
    assert n[15] == 'p';
    NoTitleMatchBy(n, t, ' ', 'p');
  }

  lemma MissesJob6(n: string, t: string)
    requires n == "frontend developer" && t == "Full Stack JavaScript Engineer"
    ensures !TitleMatches(n, t)
  {
    assert forall i :: 0 <= i < |t| ==> Lower(t[i]) != 'o';
    FullStackTitle(t, 0);
    assert n[2] == 'o';
    NoTitleMatchBy(n, t, ' ', 'o');
  }

  lemma MissesJob8(n: string, t: string)
    requires n == "frontend developer" && t == "Senior Frontend Engineer"
    ensures !TitleMatches(n, t)
  {
    PlainTitle(t, 'k');
    assert n[11] == 'v';
    NoTitleMatchBy(n, t, ' ', 'v');
  }

  lemma MissesJob9(n: string, t: string)
    requires n == "frontend developer" && t == "Backend Engineer"
    ensures !TitleMatches(n, t)
  {
    PlainTitle(t, 'f');
    assert forall i :: 0 <= i < |n| ==> n[i] != 'a';
    NoTitleMatchBy(n, t, 'a', ' ');
  }

  lemma MissesJob10(n: string, t: string)
    requires n == "frontend developer" && t == "Senior Backend Developer"
    ensures !TitleMatches(n, t)
  {
    PlainTitle(t, 'f');
    assert n[0] == 'f';
    NoTitleMatchBy(n, t, ' ', 'f');
  }

  lemma MissesJob11(n: string, t: string)
    requires n == "frontend developer" && t == "AI/ML Engineer"
    ensures !TitleMatches(n, t)
  {
    PlainTitle(t, 'f');
    assert forall i :: 0 <= i < |n| ==> n[i] != '/';
    NoTitleMatchBy(n, t, '/', ' ');
  }

  lemma MissesJob12(n: string, t: string)
    requires n == "frontend developer" && t == "Machine Learning Developer"
    ensures !TitleMatches(n, t)
  {
    PlainTitle(t, 'f');
    assert n[0] == 'f';
    NoTitleMatchBy(n, t, ' ', 'f');
  }

  lemma MissesJob13(n: string, t: string)
    requires n == "frontend developer" && t == "Lead Data Scientist"
    ensures !TitleMatches(n, t)
  {
    PlainTitle(t, 'f');
    assert n[0] == 'f';
    NoTitleMatchBy(n, t, ' ', 'f');
  }

  lemma MissesJob14(n: string, t: string)
    requires n == "frontend developer" && t == "Junior Data Scientist"
    ensures !TitleMatches(n, t)
  {
    PlainTitle(t, 'f');
    assert n[0] == 'f';
    NoTitleMatchBy(n, t, ' ', 'f');
  }

  lemma MissesJob15(n: string, t: string)
    requires n == "frontend developer" && t == "Business Analyst"
    ensures !TitleMatches(n, t)
  {
    PlainTitle(t, 'f');
    assert forall i :: 0 <= i < |n| ==> n[i] != 'u';
    NoTitleMatchBy(n, t, 'u', ' ');
  }

  lemma MissesJob16(n: string, t: string)
    requires n == "frontend developer" && t == "System Analyst"
    ensures !TitleMatches(n, t)
  {
    PlainTitle(t, 'f');
    assert forall i :: 0 <= i < |n| ==> n[i] != 'y';
    NoTitleMatchBy(n, t, 'y', ' ');
  }

  lemma MissesJob17(n: string, t: string)
    requires n == "frontend developer" && t == "Senior Data Analyst"
    ensures !TitleMatches(n, t)
  {
    PlainTitle(t, 'f');
    assert n[0] == 'f';
    NoTitleMatchBy(n, t, ' ', 'f');
  }

  lemma MissesJob18(n: string, t: string)
    requires n == "frontend developer" && t == "Product Data Analyst"
    ensures !TitleMatches(n, t)
  {
    PlainTitle(t, 'f');
    assert n[0] == 'f';
    NoTitleMatchBy(n, t, ' ', 'f');
  }

  lemma MissesJob19(n: string, t: string)
    requires n == "frontend developer" && t == "DevOps Engineer"
    ensures !TitleMatches(n, t)
  {
    PlainTitle(t, 'f');
    assert forall i :: 0 <= i < |n| ==> n[i] != 's';
    NoTitleMatchBy(n, t, 's', ' ');
  }

  lemma MissesJob20(n: string, t: string)
    requires n == "frontend developer" && t == "Product Manager"
    ensures !TitleMatches(n, t)
  {
    PlainTitle(t, 'f');
    assert forall i :: 0 <= i < |n| ==> n[i] != 'a';
    NoTitleMatchBy(n, t, 'a', ' ');
  }

  lemma MissesJob21(n: string, t: string)
    requires n == "frontend developer" && t == "Senior DevOps Engineer"
    ensures !TitleMatches(n, t)
  {
    PlainTitle(t, 'f');
    assert n[0] == 'f';
    NoTitleMatchBy(n, t, ' ', 'f');
  }

  lemma MissesJob22(n: string, t: string)
    requires n == "frontend developer" && t == "Technical Product Manager"
    ensures !TitleMatches(n, t)
  {
    PlainTitle(t, 'f');
    assert n[0] == 'f';
    NoTitleMatchBy(n, t, ' ', 'f');
  }

  /** No listing but the one at position 7 matches "frontend developer". */
  lemma OnlyJob7Matches(n: string)
    requires n == "frontend developer"
    ensures forall j :: 0 <= j < |JobTable| && j != 7 ==> !TitleMatches(n, JobTable[j].title)
  {
    forall j | 0 <= j < |JobTable| && j != 7 ensures !TitleMatches(n, JobTable[j].title) {
      if j == 0 { MissesJob0(n, JobTable[0].title); }
      else if j == 1 { MissesJob1(n, JobTable[1].title); }
      else if j == 2 { MissesJob2(n, JobTable[2].title); }
      else if j == 3 { MissesJob3(n, JobTable[3].title); }
      else if j == 4 { MissesJob4(n, JobTable[4].title); }
      else if j == 5 { MissesJob5(n, JobTable[5].title); }
      else if j == 6 { MissesJob6(n, JobTable[6].title); }
      else if j == 8 { MissesJob8(n, JobTable[8].title); }
      else if j == 9 { MissesJob9(n, JobTable[9].title); }
      else if j == 10 { MissesJob10(n, JobTable[10].title); }
      else if j == 11 { MissesJob11(n, JobTable[11].title); }
      else if j == 12 { MissesJob12(n, JobTable[12].title); }
      else if j == 13 { MissesJob13(n, JobTable[13].title); }
      else if j == 14 { MissesJob14(n, JobTable[14].title); }
      else if j == 15 { MissesJob15(n, JobTable[15].title); }
      else if j == 16 { MissesJob16(n, JobTable[16].title); }
      else if j == 17 { MissesJob17(n, JobTable[17].title); }
      else if j == 18 { MissesJob18(n, JobTable[18].title); }
      else if j == 19 { MissesJob19(n, JobTable[19].title); }
      else if j == 20 { MissesJob20(n, JobTable[20].title); }
      else if j == 21 { MissesJob21(n, JobTable[21].title); }
      else { MissesJob22(n, JobTable[22].title); }
    }
  }

  /** The listing at position 7 is job "3", "Frontend Developer". */
  lemma Job7()
    ensures JobTable[7] == Job("3", "Frontend Developer")
  {
  }

  /** "Frontend Developer" gets exactly one listing: job "3", titled "Frontend Developer". */
  lemma {:induction false} FrontendDeveloperJobs()
    ensures RecommendedJobs(Some("Frontend Developer")) == [Job("3", "Frontend Developer")]
  {
    var role := "Frontend Developer";
    FrontendNormalized();
    var n := Normalize(role);
    Job7();
    FrontendMatch(n, JobTable[7].title);
    OnlyJob7Matches(n);
    FilterOne(JobTable, (j: Job) => TitleMatches(n, j.title), 7);
  }
}

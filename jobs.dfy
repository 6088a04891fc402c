/**
 * `getRecommendedJobs` (ai-resume-analyzer-main/src/data/jobs.js): the job
 * listings whose title and the user's role contain one another.
 */
module Jobs {
  import opened Wrappers
  import opened Text
  import opened Seqs
  import opened Roles

  /** One job listing: its id and its title, the only field that takes part in matching. */
  datatype Job = Job(id: string, title: string)

  /** The listings, in declaration order. */
  const JobTable: seq<Job> := [
    Job("mern-1", "MERN Stack Developer"),
    Job("mern-2", "Junior MERN Developer"),
    Job("1", "Senior Full Stack Developer"),
    Job("2", "Full Stack Engineer"),
    Job("19", "Lead Full Stack Developer"),
    Job("20", "Junior Full Stack Dev"),
    Job("21", "Full Stack JavaScript Engineer"),
    Job("3", "Frontend Developer"),
    Job("4", "Senior Frontend Engineer"),
    Job("5", "Backend Engineer"),
    Job("6", "Senior Backend Developer"),
    Job("7", "AI/ML Engineer"),
    Job("8", "Machine Learning Developer"),
    Job("9", "Lead Data Scientist"),
    Job("10", "Junior Data Scientist"),
    Job("11", "Business Analyst"),
    Job("12", "System Analyst"),
    Job("13", "Senior Data Analyst"),
    Job("14", "Product Data Analyst"),
    Job("15", "DevOps Engineer"),
    Job("16", "Product Manager"),
    Job("17", "Senior DevOps Engineer"),
    Job("18", "Technical Product Manager")
  ]

  /**
   * A listing matches a normalised role when its normalised title (lower-cased,
   * first `fullstack` rewritten, NOT trimmed) contains the role or is contained in it.
   */
  predicate TitleMatches(role: string, title: string)
  {
    Contains(NormalizeTitle(title), role) || Contains(role, NormalizeTitle(title))
  }

  /** The `filter` of `getRecommendedJobs` over a table of listings, for a normalised role. */
  function MatchingJobs(table: seq<Job>, role: string): seq<Job>
  {
    Filter(table, (j: Job) => TitleMatches(role, j.title))
  }

  lemma MatchingJobsSpec(table: seq<Job>, role: string)
    ensures forall j :: j in MatchingJobs(table, role) <==> j in table && TitleMatches(role, j.title)
    ensures IsSubsequence(MatchingJobs(table, role), table)
  {
  }

  /** The empty role is contained in every title, so every listing matches it. */
  lemma MatchingJobsEmptyRole(table: seq<Job>, role: string)
    requires role == []
    ensures MatchingJobs(table, role) == table
  {
    forall j | j in table ensures TitleMatches(role, j.title) {
      ContainsEmpty(NormalizeTitle(j.title));
    }
    FilterAll(table, (j: Job) => TitleMatches(role, j.title));
  }

  /** `getRecommendedJobs(role)`. */
  function RecommendedJobs(role: Option<string>): (r: seq<Job>)
    ensures IsFalsy(role) ==> r == []
  {
    if IsFalsy(role) then [] else MatchingJobs(JobTable, Normalize(role.value))
  }

  /**
   * For a truthy role, a listing is recommended exactly when its title matches
   * the normalised role, and the listings keep their table order.
   */
  lemma RecommendedJobsSpec(role: string)
    requires role != []
    ensures forall j :: j in RecommendedJobs(Some(role)) <==> j in JobTable && TitleMatches(Normalize(role), j.title)
    ensures IsSubsequence(RecommendedJobs(Some(role)), JobTable)
  {
    MatchingJobsSpec(JobTable, Normalize(role));
  }

  /** Letter case and whitespace around a (non-empty) role do not change the recommended jobs. */
  lemma {:induction false} RecommendedJobsIgnoreCaseAndPadding(pre: string, a: string, b: string, post: string)
    requires AllSpace(pre) && AllSpace(post) && ToLower(a) == ToLower(b) && b != []
    ensures RecommendedJobs(Some(pre + a + post)) == RecommendedJobs(Some(b))
  {
    assert |a| == |ToLower(a)| == |ToLower(b)| == |b|;
    NormalizeIgnoresCaseAndPadding(pre, a, b, post);
  }

  /**
   * A role of whitespace only is truthy, yet normalises to `""`, which every
   * title contains: every listing is recommended (while the falsy `""` gets none).
   */
  lemma {:induction false} BlankRoleGetsEveryJob(role: string)
    requires role != [] && AllSpace(role)
    ensures RecommendedJobs(Some(role)) == JobTable
  {
    BlankRoleNormalizesToEmpty(role);
    MatchingJobsEmptyRole(JobTable, Normalize(role));
  }
}

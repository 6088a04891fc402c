/**
 * `getRecommendedKeywords` (ai-resume-analyzer-main/src/data/keywords.js): the
 * ATS keywords of the one group that matches the user's role, found first by
 * comparing role names and then through a table of role aliases.
 */
module Keywords {
  import opened Wrappers
  import opened Text
  import opened Seqs
  import opened Roles

  datatype KeywordGroup = KeywordGroup(role: string, keywords: seq<string>)

  const FullStackKeywords: seq<string> := ["React", "Node.js", "TypeScript", "GraphQL", "REST API", "Docker", "AWS", "CI/CD", "Microservices", "System Design", "Scalability", "Agile", "Git", "Testing", "Redux"]
  const MernKeywords: seq<string> := ["MongoDB", "Express.js", "React", "Node.js", "Redux", "Mongoose", "RESTful APIs", "JWT", "Authentication", "Socket.io", "Tailwind CSS", "Vite", "Git", "Heroku"]
  const FrontendKeywords: seq<string> := ["React", "Vue.js", "Angular", "HTML5", "CSS3", "JavaScript", "TypeScript", "Responsive Design", "Web Performance", "Accessibility", "Figma", "State Management", "Next.js", "Tailwind CSS"]
  const BackendKeywords: seq<string> := ["Node.js", "Python", "Java", "Go", "SQL", "NoSQL", "MongoDB", "PostgreSQL", "Redis", "API Design", "Authentication", "Security", "Docker", "Kubernetes", "Cloud Computing"]
  const AiMlKeywords: seq<string> := ["Python", "TensorFlow", "PyTorch", "Scikit-learn", "Deep Learning", "Neural Networks", "NLP", "Computer Vision", "Data Preprocessing", "Model Deployment", "MLOps", "Pandas"]
  const DataScientistKeywords: seq<string> := ["Python", "R", "SQL", "Machine Learning", "Statistical Analysis", "Data Visualization", "Tableau", "Power BI", "Big Data", "Spark", "Hadoop", "A/B Testing", "Predictive Modeling"]
  const DevOpsKeywords: seq<string> := ["AWS", "Azure", "GCP", "Docker", "Kubernetes", "Jenkins", "GitLab CI", "Terraform", "Ansible", "Linux", "Bash Scripting", "Monitoring", "Prometheus", "Grafana", "Security"]
  const ProductManagerKeywords: seq<string> := ["Product Strategy", "Roadmap", "Agile", "Scrum", "User Research", "Data Analysis", "Stakeholder Management", "Jira", "A/B Testing", "Go-to-Market", "KPIs", "UX Design"]
  const DataAnalystKeywords: seq<string> := ["SQL", "Excel", "Tableau", "Power BI", "Python", "R", "Data Cleaning", "Data Visualization", "Reporting", "Statistical Analysis", "Business Intelligence", "Dashboards"]

  /** The keyword groups, in declaration order. */
  const KeywordGroups: seq<KeywordGroup> := [
    KeywordGroup("Full Stack Developer", FullStackKeywords),
    KeywordGroup("MERN Stack Developer", MernKeywords),
    KeywordGroup("Frontend Developer", FrontendKeywords),
    KeywordGroup("Backend Developer", BackendKeywords),
    KeywordGroup("AI/ML Engineer", AiMlKeywords),
    KeywordGroup("Data Scientist", DataScientistKeywords),
    KeywordGroup("DevOps Engineer", DevOpsKeywords),
    KeywordGroup("Product Manager", ProductManagerKeywords),
    KeywordGroup("Data Analyst", DataAnalystKeywords)
  ]

  /** `roleKeys`: an alias and the exact group role it stands for, in declaration order. */
  datatype Alias = Alias(key: string, target: string)

  const RoleKeys: seq<Alias> := [
    Alias("mern", "MERN Stack Developer"),
    Alias("full stack", "Full Stack Developer"),
    Alias("frontend", "Frontend Developer"),
    Alias("backend", "Backend Developer"),
    Alias("ai", "AI/ML Engineer"),
    Alias("ml", "AI/ML Engineer"),
    Alias("data scientist", "Data Scientist"),
    Alias("data analyst", "Data Analyst"),
    Alias("devops", "DevOps Engineer"),
    Alias("product", "Product Manager")
  ]

  /**
   * The direct test: the group's role, lower-cased only (it never goes through
   * the `fullstack` rewrite), equals, contains or is contained in the normalised role.
   */
  predicate RoleMatch(role: string, groupRole: string)
  {
    var lowered := ToLower(groupRole);
    lowered == role || Contains(lowered, role) || Contains(role, lowered)
  }

  predicate DirectMatch(role: string, g: KeywordGroup)
  {
    RoleMatch(role, g.role)
  }

  /** `groups.find(...)` with the direct test, as an index: the first group at or after `i` that matches. */
  function FirstDirect(groups: seq<KeywordGroup>, role: string, i: nat): (r: Option<nat>)
    requires i <= |groups|
    ensures r.Some? ==> i <= r.value < |groups| && DirectMatch(role, groups[r.value])
    ensures forall j :: i <= j < |groups| && (r.None? || j < r.value) ==> !DirectMatch(role, groups[j])
    decreases |groups| - i
  {
    if i == |groups| then None
    else if DirectMatch(role, groups[i]) then Some(i)
    else FirstDirect(groups, role, i + 1)
  }

  /** `groups.find(k => k.role === target)`: exact, case-sensitive comparison of role names. */
  function GroupNamed(groups: seq<KeywordGroup>, target: string): (r: Option<nat>)
    ensures r.Some? ==> r.value < |groups| && groups[r.value].role == target
    ensures r.None? ==> forall j :: 0 <= j < |groups| ==> groups[j].role != target
  {
    FindIndex(groups, (g: KeywordGroup) => g.role == target)
  }

  /** An alias selects a group when the role contains its key and its target names a group. */
  predicate AliasHit(groups: seq<KeywordGroup>, role: string, a: Alias)
  {
    Contains(role, a.key) && GroupNamed(groups, a.target).Some?
  }

  /** The alias phase: the first alias at or after `i` that selects a group. */
  function FirstAlias(groups: seq<KeywordGroup>, aliases: seq<Alias>, role: string, i: nat): (r: Option<nat>)
    requires i <= |aliases|
    ensures r.Some? ==> i <= r.value < |aliases| && AliasHit(groups, role, aliases[r.value])
    ensures forall j :: i <= j < |aliases| && (r.None? || j < r.value) ==> !AliasHit(groups, role, aliases[j])
    decreases |aliases| - i
  {
    if i == |aliases| then None
    else if AliasHit(groups, role, aliases[i]) then Some(i)
    else FirstAlias(groups, aliases, role, i + 1)
  }

  /** The keywords for a truthy role whose normalised form is `n`. */
  function KeywordsFor(groups: seq<KeywordGroup>, aliases: seq<Alias>, n: string): (r: seq<string>)
    ensures r == [] || exists i :: 0 <= i < |groups| && r == groups[i].keywords
  {
    match FirstDirect(groups, n, 0)
    case Some(i) => groups[i].keywords
    case None =>
      match FirstAlias(groups, aliases, n, 0)
      case Some(k) => groups[GroupNamed(groups, aliases[k].target).value].keywords
      case None => []
  }

  /** `getRecommendedKeywords(role)`: empty or exactly one group's keyword list. */
  function RecommendedKeywords(role: Option<string>): (r: seq<string>)
    ensures IsFalsy(role) ==> r == []
    ensures r == [] || exists i :: 0 <= i < |KeywordGroups| && r == KeywordGroups[i].keywords
  {
    if IsFalsy(role) then [] else KeywordsFor(KeywordGroups, RoleKeys, Normalize(role.value))
  }

  /** The alias loop of the source: scan the aliases in order and return at the first hit. */
  method ScanAliases(groups: seq<KeywordGroup>, aliases: seq<Alias>, n: string) returns (r: Option<seq<string>>)
    ensures r.None? <==> FirstAlias(groups, aliases, n, 0).None?
    ensures r.Some? ==> r.value == groups[GroupNamed(groups, aliases[FirstAlias(groups, aliases, n, 0).value].target).value].keywords
  {
    var i := 0;
    while i < |aliases|
      invariant 0 <= i <= |aliases|
      invariant FirstAlias(groups, aliases, n, i) == FirstAlias(groups, aliases, n, 0)
    {
      if Contains(n, aliases[i].key) {
        var m := GroupNamed(groups, aliases[i].target);
        if m.Some? {
          return Some(groups[m.value].keywords);
        }
      }
      i := i + 1;
    }
    return None;
  }

  /** The source's control flow: the direct `find`, then the alias loop. */
  method GetRecommendedKeywords(role: Option<string>) returns (r: seq<string>)
    ensures r == RecommendedKeywords(role)
  {
    if IsFalsy(role) {
      return [];
    }
    var n := Normalize(role.value);
    var direct := FirstDirect(KeywordGroups, n, 0);
    if direct.Some? {
      return KeywordGroups[direct.value].keywords;
    }
    var viaAlias := ScanAliases(KeywordGroups, RoleKeys, n);
    if viaAlias.Some? {
      return viaAlias.value;
    }
    return [];
  }

  /** Every alias names a group that exists, so the alias phase returns at the first alias the role contains. */
  lemma AliasTargetsExist()
    ensures forall k :: 0 <= k < |RoleKeys| ==> GroupNamed(KeywordGroups, RoleKeys[k].target).Some?
  {
    var targets := [1, 0, 2, 3, 4, 4, 5, 8, 6, 7];
    forall k | 0 <= k < |RoleKeys| ensures GroupNamed(KeywordGroups, RoleKeys[k].target).Some? {
      assert KeywordGroups[targets[k]].role == RoleKeys[k].target;
    }
  }

  /** When a group matches directly, the first such group in table order supplies the keywords. */
  lemma KeywordsForDirect(groups: seq<KeywordGroup>, aliases: seq<Alias>, n: string, i: nat)
    requires i < |groups| && DirectMatch(n, groups[i])
    requires forall j :: 0 <= j < i ==> !DirectMatch(n, groups[j])
    ensures KeywordsFor(groups, aliases, n) == groups[i].keywords
  {
    assert FirstDirect(groups, n, 0) == Some(i);
  }

  /** With no direct match, the first alias the role contains whose target names a group selects that group. */
  lemma KeywordsForAlias(groups: seq<KeywordGroup>, aliases: seq<Alias>, n: string, k: nat)
    requires forall j :: 0 <= j < |groups| ==> !DirectMatch(n, groups[j])
    requires k < |aliases| && AliasHit(groups, n, aliases[k])
    requires forall j :: 0 <= j < k ==> !AliasHit(groups, n, aliases[j])
    ensures KeywordsFor(groups, aliases, n) == groups[GroupNamed(groups, aliases[k].target).value].keywords
  {
    assert FirstDirect(groups, n, 0) == None;
    assert FirstAlias(groups, aliases, n, 0) == Some(k);
  }

  /** With neither a direct match nor an alias hit there are no keywords. */
  lemma KeywordsForNone(groups: seq<KeywordGroup>, aliases: seq<Alias>, n: string)
    requires forall j :: 0 <= j < |groups| ==> !DirectMatch(n, groups[j])
    requires forall j :: 0 <= j < |aliases| ==> !AliasHit(groups, n, aliases[j])
    ensures KeywordsFor(groups, aliases, n) == []
  {
    assert FirstDirect(groups, n, 0) == None;
    assert FirstAlias(groups, aliases, n, 0) == None;
  }

  /** When a group of the table matches directly, the first such group supplies the keywords. */
  lemma DirectMatchWins(role: string, i: nat)
    requires role != [] && i < |KeywordGroups| && DirectMatch(Normalize(role), KeywordGroups[i])
    requires forall j :: 0 <= j < i ==> !DirectMatch(Normalize(role), KeywordGroups[j])
    ensures RecommendedKeywords(Some(role)) == KeywordGroups[i].keywords
  {
    KeywordsForDirect(KeywordGroups, RoleKeys, Normalize(role), i);
  }

  /**
   * With no direct match, the first alias (in the order `mern`, `full stack`,
   * `frontend`, `backend`, `ai`, `ml`, `data scientist`, `data analyst`,
   * `devops`, `product`) that the role contains selects the group its target names.
   */
  lemma {:induction false} FirstAliasWins(role: string, k: nat)
    requires role != [] && k < |RoleKeys|
    requires forall j :: 0 <= j < |KeywordGroups| ==> !DirectMatch(Normalize(role), KeywordGroups[j])
    requires Contains(Normalize(role), RoleKeys[k].key)
    requires forall j :: 0 <= j < k ==> !Contains(Normalize(role), RoleKeys[j].key)
    ensures exists t :: (0 <= t < |KeywordGroups| && KeywordGroups[t].role == RoleKeys[k].target &&
                         RecommendedKeywords(Some(role)) == KeywordGroups[t].keywords)
  {
    AliasTargetsExist();
    var n := Normalize(role);
    var m := GroupNamed(KeywordGroups, RoleKeys[k].target);
    assert m.Some?;
    KeywordsForAlias(KeywordGroups, RoleKeys, n, k);
    assert KeywordGroups[m.value].role == RoleKeys[k].target;
  }

  /** With neither a direct match nor an alias the role contains, there are no keywords. */
  lemma NoMatchNoKeywords(role: string)
    requires role != []
    requires forall j :: 0 <= j < |KeywordGroups| ==> !DirectMatch(Normalize(role), KeywordGroups[j])
    requires forall j :: 0 <= j < |RoleKeys| ==> !Contains(Normalize(role), RoleKeys[j].key)
    ensures RecommendedKeywords(Some(role)) == []
  {
    KeywordsForNone(KeywordGroups, RoleKeys, Normalize(role));
  }

  /**
   * A whitespace-only role is truthy and normalises to `""`, which every group
   * role contains: it gets the first group, Full Stack Developer.
   */
  lemma {:induction false} BlankRoleGetsFirstGroup(role: string)
    requires role != [] && AllSpace(role)
    ensures RecommendedKeywords(Some(role)) == KeywordGroups[0].keywords
  {
    BlankRoleNormalizesToEmpty(role);
    ContainsEmpty(ToLower(KeywordGroups[0].role));
    KeywordsForDirect(KeywordGroups, RoleKeys, Normalize(role), 0);
  }
}

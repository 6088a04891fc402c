/**
 * `getRecommendedProjects` (ai-resume-analyzer-main/src/data/projects.js):
 * search tokens are gathered from every role alias the user's role contains,
 * and a project is kept when its text contains any token.
 */
module Projects {
  import opened Wrappers
  import opened Text
  import opened Seqs
  import opened Roles

  datatype Difficulty = Beginner | Intermediate | Advanced

  datatype Project = Project(id: string, title: string, description: string,
                             technologies: seq<string>, difficulty: Difficulty)

  /** The project ideas, in declaration order. */
  const ProjectTable: seq<Project> := [
    Project("1", "E-commerce Platform", "A full-stack e-commerce application with user authentication, product catalog, and payment integration.", ["React", "Node.js", "MongoDB", "Stripe"], Advanced),
    Project("2", "Task Management App", "A productivity tool to organize tasks with drag-and-drop functionality.", ["React", "Redux", "Firebase"], Intermediate),
    Project("3", "Social Media Dashboard", "A dashboard to view and manage social media posts across different platforms.", ["Vue.js", "Firebase", "Chart.js"], Intermediate),
    Project("4", "Weather Dashboard", "A responsive weather app that fetches data from a public API and displays forecasts.", ["React", "OpenWeatherMap API", "CSS Grid"], Beginner),
    Project("5", "Portfolio Website", "Design and build a personal portfolio to showcase your skills and projects.", ["HTML", "CSS", "JavaScript", "Framer Motion"], Beginner),
    Project("6", "RESTful API for Blog", "Build a backend API for a blogging platform with authentication and CRUD operations.", ["Express.js", "MongoDB", "JWT"], Intermediate),
    Project("7", "Real-time Chat Server", "Implement a scalable chat server handling multiple rooms and concurrent users.", ["Go", "WebSocket", "Redis"], Advanced),
    Project("8", "Image Classification Model", "Train a CNN model to classify images from the CIFAR-10 dataset.", ["Python", "TensorFlow", "Keras"], Intermediate),
    Project("9", "Sentiment Analysis Tool", "Analyze customer reviews to determine positive or negative sentiment.", ["Python", "NLTK", "Scikit - learn"], Beginner),
    Project("10", "House Price Prediction", "Predict housing prices based on various features using regression techniques.", ["Python", "Pandas", "XGBoost"], Intermediate),
    Project("11", "Customer Churn Analysis", "Analyze customer data to identify factors contributing to churn.", ["R", "Tableau", "SQL"], Advanced),
    Project("12", "CI/CD Pipeline", "Set up a complete CI/CD pipeline for a web application using GitHub Actions.", ["GitHub Actions", "Docker", "AWS"], Intermediate),
    Project("13", "Kubernetes Cluster Setup", "Deploy a microservices application on a Kubernetes cluster.", ["Kubernetes", "Helm", "Terraform"], Advanced),
    Project("14", "Product Roadmap Case Study", "Create a detailed product roadmap for a hypothetical feature launch.", ["Jira", "Figma", "Notion"], Intermediate),
    Project("mern-1", "MERN Social Network", "A social networking site with posts, likes, comments, and real-time notifications.", ["MongoDB", "Express", "React", "Node.js", "Socket.io"], Advanced),
    Project("mern-2", "MERN E-learning Platform", "An online learning platform with video courses, quizzes, and progress tracking.", ["MongoDB", "Express", "React", "Node.js", "Stripe"], Advanced),
    Project("15", "Market Research Report", "Conduct and document market research for a new mobile app idea.", ["Google Analytics", "SurveyMonkey", "Excel"], Beginner)
  ]

  /** One entry of `roleKeywords`: a role alias and the search tokens it contributes. */
  datatype RoleKeyword = RoleKeyword(key: string, values: seq<string>)

  const RoleKeywords: seq<RoleKeyword> := [
    RoleKeyword("full stack", ["react", "node", "full stack", "next.js", "vue"]),
    RoleKeyword("mern", ["mern", "mongo", "express", "react", "node"]),
    RoleKeyword("frontend", ["react", "css", "html", "frontend", "ui"]),
    RoleKeyword("backend", ["api", "database", "server", "backend", "sql", "go"]),
    RoleKeyword("ai", ["python", "tensorflow", "model", "ai", "machine learning"]),
    RoleKeyword("ml", ["python", "tensorflow", "model", "ai", "machine learning"]),
    RoleKeyword("data scientist", ["python", "pandas", "analysis", "data"]),
    RoleKeyword("data analyst", ["sql", "tableau", "analysis", "data"]),
    RoleKeyword("devops", ["docker", "kubernetes", "aws", "ci/cd", "pipeline"]),
    RoleKeyword("product manager", ["roadmap", "market", "product", "jira"])
  ]

  /** The tokens of every entry whose key the role contains, concatenated in table order, duplicates kept. */
  function AliasTokens(entries: seq<RoleKeyword>, role: string): seq<string>
  {
    if entries == [] then []
    else
      var last := entries[|entries| - 1];
      AliasTokens(entries[..|entries| - 1], role) + (if Contains(role, last.key) then last.values else [])
  }

  /** A token is gathered exactly when some entry whose key the role contains lists it. */
  lemma {:induction false} AliasTokensMembership(entries: seq<RoleKeyword>, role: string, t: string)
    ensures t in AliasTokens(entries, role) <==>
      exists i :: 0 <= i < |entries| && Contains(role, entries[i].key) && t in entries[i].values
  {
    if entries != [] {
      var init := entries[..|entries| - 1];
      AliasTokensMembership(init, role, t);
      if exists i :: 0 <= i < |init| && Contains(role, init[i].key) && t in init[i].values {
        var i :| 0 <= i < |init| && Contains(role, init[i].key) && t in init[i].values;
        assert entries[i] == init[i];
      }
      if exists i :: 0 <= i < |entries| && Contains(role, entries[i].key) && t in entries[i].values {
        var i :| 0 <= i < |entries| && Contains(role, entries[i].key) && t in entries[i].values;
        if i < |init| {
          assert init[i] == entries[i];
        }
      }
    }
  }

  /** `keywords`, after the fallback: the gathered tokens, or the normalised role itself when there are none. */
  function SearchTokens(entries: seq<RoleKeyword>, role: string): seq<string>
  {
    var gathered := AliasTokens(entries, role);
    if |gathered| == 0 then [role] else gathered
  }

  /** The loop of the source: for each entry in order, append its tokens when the role contains its key. */
  method BuildSearchTokens(entries: seq<RoleKeyword>, role: string) returns (tokens: seq<string>)
    ensures tokens == SearchTokens(entries, role)
  {
    tokens := [];
    var i := 0;
    while i < |entries|
      invariant 0 <= i <= |entries|
      invariant tokens == AliasTokens(entries[..i], role)
    {
      assert entries[..i + 1][..i] == entries[..i];
      if Contains(role, entries[i].key) {
        tokens := tokens + entries[i].values;
      }
      i := i + 1;
    }
    assert entries[..|entries|] == entries;
    if |tokens| == 0 {
      tokens := [role];
    }
  }

  /** `${title} ${description} ${technologies.join(' ')}`, lower-cased. */
  function ProjectText(p: Project): string
  {
    ToLower(p.title + " " + p.description + " " + Join(p.technologies, " "))
  }

  /** `keywords.some(keyword => projectText.includes(keyword))`. */
  predicate ProjectMatches(tokens: seq<string>, p: Project)
  {
    exists t :: t in tokens && Contains(ProjectText(p), t)
  }

  /** The final `filter` over a table of projects. */
  function MatchingProjects(table: seq<Project>, tokens: seq<string>): seq<Project>
  {
    Filter(table, (p: Project) => ProjectMatches(tokens, p))
  }

  /** A project is kept exactly when its text contains some token; the table order is kept. */
  lemma MatchingProjectsSpec(table: seq<Project>, tokens: seq<string>)
    ensures forall p :: p in MatchingProjects(table, tokens) <==> p in table && ProjectMatches(tokens, p)
    ensures IsSubsequence(MatchingProjects(table, tokens), table)
  {
  }

  /** Only the SET of tokens matters: reordering or duplicating tokens does not change the result. */
  lemma {:induction false} MatchingProjectsUseTokenSet(table: seq<Project>, t1: seq<string>, t2: seq<string>)
    requires forall t :: t in t1 <==> t in t2
    ensures MatchingProjects(table, t1) == MatchingProjects(table, t2)
  {
    forall p | p in table ensures ProjectMatches(t1, p) == ProjectMatches(t2, p) {
      if ProjectMatches(t1, p) {
        var t :| t in t1 && Contains(ProjectText(p), t);
        assert t in t2;
      }
      if ProjectMatches(t2, p) {
        var t :| t in t2 && Contains(ProjectText(p), t);
        assert t in t1;
      }
    }
    FilterCongruent(table, (p: Project) => ProjectMatches(t1, p), (p: Project) => ProjectMatches(t2, p));
  }

  /** `getRecommendedProjects(role)`. */
  function RecommendedProjects(role: Option<string>): (r: seq<Project>)
    ensures IsFalsy(role) ==> r == []
  {
    if IsFalsy(role) then [] else MatchingProjects(ProjectTable, SearchTokens(RoleKeywords, Normalize(role.value)))
  }

  /** The source's control flow: the truthiness test, the token loop, then the filter. */
  method GetRecommendedProjects(role: Option<string>) returns (r: seq<Project>)
    ensures r == RecommendedProjects(role)
  {
    if IsFalsy(role) {
      return [];
    }
    var n := Normalize(role.value);
    var tokens := BuildSearchTokens(RoleKeywords, n);
    r := MatchingProjects(ProjectTable, tokens);
  }

  /** With no key contained in the role, the only search token is the normalised role itself. */
  lemma {:induction false} SearchTokensFallback(entries: seq<RoleKeyword>, role: string)
    requires forall i :: 0 <= i < |entries| ==> !Contains(role, entries[i].key)
    ensures SearchTokens(entries, role) == [role]
  {
    var gathered := AliasTokens(entries, role);
    if |gathered| != 0 {
      AliasTokensMembership(entries, role, gathered[0]);
    }
  }

  /** When some key is contained and no entry lists zero tokens, the gathered tokens are used as they are. */
  lemma {:induction false} SearchTokensGathered(entries: seq<RoleKeyword>, role: string, i: nat)
    requires i < |entries| && Contains(role, entries[i].key) && entries[i].values != []
    ensures SearchTokens(entries, role) == AliasTokens(entries, role)
  {
    AliasTokensMembership(entries, role, entries[i].values[0]);
  }

  /** Letter case and whitespace around a (non-empty) role do not change the recommended projects. */
  lemma {:induction false} RecommendedProjectsIgnoreCaseAndPadding(pre: string, a: string, b: string, post: string)
    requires AllSpace(pre) && AllSpace(post) && ToLower(a) == ToLower(b) && b != []
    ensures RecommendedProjects(Some(pre + a + post)) == RecommendedProjects(Some(b))
  {
    assert |a| == |ToLower(a)| == |ToLower(b)| == |b|;
    NormalizeIgnoresCaseAndPadding(pre, a, b, post);
  }

  /** The empty string as the only token keeps every project. */
  lemma MatchingProjectsEmptyToken(table: seq<Project>, tokens: seq<string>)
    requires tokens == [[]]
    ensures MatchingProjects(table, tokens) == table
  {
    forall p | p in table ensures ProjectMatches(tokens, p) {
      ContainsEmpty(ProjectText(p));
      assert [] in tokens;
    }
    FilterAll(table, (p: Project) => ProjectMatches(tokens, p));
  }

  /**
   * A whitespace-only role is truthy and normalises to `""`; no alias key is
   * empty, so the only token is `""`, which every project text contains.
   */
  lemma {:induction false} BlankRoleGetsEveryProject(role: string)
    requires role != [] && AllSpace(role)
    ensures RecommendedProjects(Some(role)) == ProjectTable
  {
    BlankRoleNormalizesToEmpty(role);
    var n := Normalize(role);
    forall i | 0 <= i < |RoleKeywords| ensures !Contains(n, RoleKeywords[i].key) {
      assert RoleKeywords[i].key != [];
    }
    SearchTokensFallback(RoleKeywords, n);
    MatchingProjectsEmptyToken(ProjectTable, SearchTokens(RoleKeywords, n));
  }

  /** When exactly one key is contained in the role, the gathered tokens are that entry's tokens. */
  lemma {:induction false} AliasTokensSingle(entries: seq<RoleKeyword>, role: string, i: nat)
    requires i < |entries| && Contains(role, entries[i].key)
    requires forall j :: 0 <= j < |entries| && j != i ==> !Contains(role, entries[j].key)
    ensures AliasTokens(entries, role) == entries[i].values
  {
    var init := entries[..|entries| - 1];
    if i == |entries| - 1 {
      AliasTokensNone(init, role);
    } else {
      AliasTokensSingle(init, role, i);
    }
  }

  /** When no key is contained in the role, nothing is gathered. */
  lemma {:induction false} AliasTokensNone(entries: seq<RoleKeyword>, role: string)
    requires forall j :: 0 <= j < |entries| ==> !Contains(role, entries[j].key)
    ensures AliasTokens(entries, role) == []
  {
    if entries != [] {
      AliasTokensNone(entries[..|entries| - 1], role);
    }
  }

  /** "DevOps Engineer" normalises to "devops engineer". */
  lemma DevOpsNormalized()
    ensures Normalize("DevOps Engineer") == "devops engineer"
  {
    var role := "DevOps Engineer";
    var n := "devops engineer";
    assert ToLower(role) == n;
    assert n[0] == 'd' && n[|n| - 1] == 'r';
    assert forall i :: 0 <= i < |n| ==> n[i] != 'f';
    NormalizeOfPlainRole(role, n, 'f');
  }

  /** "devops engineer" contains `devops` and none of the first five other alias keys. */
  lemma DevOpsKeyWitnesses(n: string)
    requires n == "devops engineer"
    ensures Contains(n, "devops")
    ensures !Contains(n, "full stack") && !Contains(n, "mern") && !Contains(n, "frontend")
    ensures !Contains(n, "backend") && !Contains(n, "ai")
  {
    assert n[0..6] == "devops";
    assert OccursAt(n, "devops", 0);
    NotContainsChar(n, "full stack", 'f');
    NotContainsChar(n, "mern", 'm');
    NotContainsChar(n, "frontend", 'f');
    NotContainsChar(n, "backend", 'b');
    NotContainsChar(n, "ai", 'a');
  }

  /** "devops engineer" contains none of the last four other alias keys. */
  lemma DevOpsKeyAbsences(n: string)
    requires n == "devops engineer"
    ensures !Contains(n, "ml") && !Contains(n, "data scientist")
    ensures !Contains(n, "data analyst") && !Contains(n, "product manager")
  {
    NotContainsChar(n, "ml", 'm');
    NotContainsChar(n, "data scientist", 'a');
    NotContainsChar(n, "data analyst", 'a');
    NotContainsChar(n, "product manager", 'u');
  }

  /** Of the alias keys in the table, "devops engineer" contains only `devops` (entry 8). */
  lemma DevOpsKeys(n: string)
    requires n == "devops engineer"
    ensures Contains(n, RoleKeywords[8].key)
    ensures forall j :: 0 <= j < |RoleKeywords| && j != 8 ==> !Contains(n, RoleKeywords[j].key)
  {
    DevOpsKeyWitnesses(n);
    DevOpsKeyAbsences(n);
  }

  /** "devops engineer" holds the alias `devops` and no other, so its tokens are those of `devops`. */
  lemma DevOpsTokens(n: string)
    requires n == "devops engineer"
    ensures SearchTokens(RoleKeywords, n) == DevOpsSearch
  {
    DevOpsKeys(n);
    AliasTokensSingle(RoleKeywords, n, 8);
    SearchTokensGathered(RoleKeywords, n, 8);
  }

  /** `getRecommendedProjects("DevOps Engineer")` searches the projects for the five DevOps tokens. */
  lemma {:induction false} DevOpsRecommendations()
    ensures RecommendedProjects(Some("DevOps Engineer")) == MatchingProjects(ProjectTable, DevOpsSearch)
  {
    var role := "DevOps Engineer";
    DevOpsNormalized();
    DevOpsTokens(Normalize(role));
  }

  /** A project whose lower-cased title contains one of the tokens is recommended. */
  lemma {:induction false} TitleTokenMatches(table: seq<Project>, tokens: seq<string>, i: nat, t: string)
    requires i < |table| && t in tokens && Contains(ToLower(table[i].title), t)
    ensures table[i] in MatchingProjects(table, tokens)
  {
    var p := table[i];
    var rest := " " + p.description + " " + Join(p.technologies, " ");
    assert p.title + " " + p.description + " " + Join(p.technologies, " ") == p.title + rest;
    ToLowerConcat(p.title, rest);
    ContainsConcat(ToLower(p.title), ToLower(rest));
    ContainsTrans(ProjectText(p), ToLower(p.title), t);
    MatchingProjectsSpec(table, tokens);
  }

  /** The tokens `getRecommendedProjects` searches for a DevOps role. */
  const DevOpsSearch: seq<string> := ["docker", "kubernetes", "aws", "ci/cd", "pipeline"]

  /** Project "12", "CI/CD Pipeline", is among the DevOps recommendations. */
  lemma CiCdPipelineRecommended()
    ensures ProjectTable[11] in MatchingProjects(ProjectTable, DevOpsSearch)
  {
    var t := "ci/cd";
    var title := ProjectTable[11].title;
    assert title == "CI/CD Pipeline";
    assert ToLower(title)[..5] == t;
    assert OccursAt(ToLower(title), t, 0);
    TitleTokenMatches(ProjectTable, DevOpsSearch, 11, t);
  }

  /** Project "13", "Kubernetes Cluster Setup", is among the DevOps recommendations. */
  lemma KubernetesClusterRecommended()
    ensures ProjectTable[12] in MatchingProjects(ProjectTable, DevOpsSearch)
  {
    var t := "kubernetes";
    var title := ProjectTable[12].title;
    assert title == "Kubernetes Cluster Setup";
    assert ToLower(title)[..10] == t;
    assert OccursAt(ToLower(title), t, 0);
    TitleTokenMatches(ProjectTable, DevOpsSearch, 12, t);
  }
}

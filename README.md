# Resumind recommendation and scoring core, in Dafny

Resumind is a resume analyser with a React front end and an Express back end.
This project models the part of it that computes rather than renders, fetches
or stores:

- **Role normalisation** (`Roles`). The three recommendation helpers all apply
  `role.toLowerCase().trim().replace('fullstack', 'full stack')` to the user's
  role. Job titles get the same treatment without the trim.
- **Job recommendations** (`Jobs`). `getRecommendedJobs` keeps the listings
  whose normalised title and the normalised role contain one another.
- **Keyword recommendations** (`Keywords`). `getRecommendedKeywords` runs in
  two phases. A direct `find` over the keyword groups runs first. If it fails,
  an ordered alias loop runs and returns at the first alias hit.
- **Project recommendations** (`Projects`). `getRecommendedProjects` gathers
  tokens from every role alias the role contains, falling back to the role
  itself. It then keeps each project whose text contains some token.
- **Key/value listing** (`KvList`). The `list` endpoint of the key/value store
  turns a glob pattern into a regular expression anchored at the start. A `?`
  is not escaped, so a pattern whose `?` has nothing to repeat makes `new RegExp`
  throw and the request answer 500. It returns the found records as key/value
  pairs or as bare keys.
- **AI chat** (`AiChat`). The `chat` handler has three parts:
  - the fixed reply when no API key is set;
  - the nested loops that flatten the chat messages into a prompt and a resume context;
  - the removal of Markdown code fences from the model's reply.
- **Score cards** (`Feedback`, `AtsCard`, `DetailsPanel`, `SummaryPanel`). Each
  of the ATS card, the detail badges and the summary bars classifies a score
  into three tiers with its own cut-offs.

Three files hold worked examples on the real tables:
- `JobExamples`: "Frontend Developer" gets exactly job "3".
- `KeywordExamples`: "Junior MERN Developer" resolves by alias, "Email Marketer"
  reaches the AI/ML keywords through the `ai` inside "email", and "Chief Regional
  Overlord" gets nothing.
- `Projects`: the DevOps tokens and the two DevOps projects.

Shared helpers:
- `Text` holds ASCII `toLowerCase`, `trim`, `includes`, the first-occurrence
  `replace` with a string pattern, the global `replace` with a fixed pattern,
  and `join`.
- `Seqs` holds `filter`, `findIndex` and subsequences.
- `Wrappers` holds `Option`. A JavaScript value that may be `null` or
  `undefined` is an `Option`, and a falsy role, pattern or key is `None` or
  `Some("")`.

The model follows the code's quirks:
- Only the first `fullstack` is rewritten, so normalisation is not idempotent:
  `Roles.NormalizeLeavesSecondFullStack` shows that `"fullstackfullstack"`
  becomes `"full stackfullstack"`, and normalising that again changes it.
  `Roles.NormalizeIdempotentIff` gives the exact condition.
- Job titles are not trimmed.
- Keyword group roles are lower-cased but never rewritten.
- A whitespace-only role passes the `!role` test and normalises to `""`. Every
  title, group role and project text contains `""`, so such a role gets every
  job, the first keyword group and every project.
- Keyword aliases match as raw substrings.

The comment above the normalisation in `jobs.js` speaks of handling
`fullstack` against `full stack` for consistent matching. `replace` with a
string pattern rewrites only the first occurrence, and the model follows the
code.

Every loop of the source is a method with a `while` loop, proved against a
recursive function that specifies it:
- the alias loop of `getRecommendedKeywords` (`Keywords.ScanAliases`);
- the token loop of `getRecommendedProjects` (`Projects.BuildSearchTokens`);
- the message and part loops of `chat` (`AiChat.Flatten`, `AiChat.AppendParts`).

Everything else in the core is an expression over constant tables and is
modelled as functions. The properties are proved as lemmas about those
functions.

## Model

| member | source | states |
|---|---|---|
| Text.ToLower | ai-resume-analyzer-main/src/data/jobs.js:253 | `toLowerCase` on ASCII: the result has the length of its input, letter by letter (its properties are stated by `Text.ToLowerSpec`) |
| Text.Contains | ai-resume-analyzer-main/src/data/jobs.js:260-261 | `includes`: the pattern occurs at some position of the text (the empty pattern everywhere) |
| Text.Join | ai-resume-analyzer-main/src/data/projects.js:188 | `join(' ')`: no parts give the empty text, one part itself, more parts separated by the separator |
| Text.Trim | ai-resume-analyzer-main/src/data/jobs.js:253 | `trim`: the result is no longer than the input and has no whitespace at either end (the exact slice is stated by `Text.TrimSpec`) |
| Text.ToLowerSpec | ai-resume-analyzer-main/src/data/jobs.js:253 | `toLowerCase` leaves no upper-case letter, keeps every other character, and is the identity on lower-case text |
| Text.TrimSpec | ai-resume-analyzer-main/src/data/jobs.js:253 | `trim` returns the slice between the leading and the trailing whitespace: that slice has no whitespace at either end and only whitespace lies outside it |
| Text.TrimPadding | ai-resume-analyzer-main/src/data/jobs.js:253 | whitespace added around a string does not change its trimmed form |
| Text.RemoveAll | backend/controllers/aiController.js:92 | `replace` with a global fixed pattern: the text is unchanged when the pattern does not occur, and is at least one pattern length shorter when it does |
| Text.IndexOf | ai-resume-analyzer-main/src/data/jobs.js:253 | the search `replace` does finds no occurrence exactly when there is none, and otherwise finds the first one |
| Text.ReplaceFirst | ai-resume-analyzer-main/src/data/jobs.js:253 | `replace` with a string pattern: unchanged when the pattern does not occur, otherwise only its first occurrence replaced |
| Roles.Normalize | ai-resume-analyzer-main/src/data/jobs.js:253 | the normalised role is lower-case and trimmed, and is the trimmed lower-cased role whenever that holds no `fullstack` |
| Roles.NormalizeTitle | ai-resume-analyzer-main/src/data/jobs.js:256 | a normalised job title is lower-case, and is the lower-cased title whenever that holds no `fullstack` (titles are not trimmed) |
| Roles.NormalizeIgnoresCaseAndPadding | ai-resume-analyzer-main/src/data/jobs.js:253 | the normalised role depends neither on letter case nor on whitespace around the role |
| Roles.BlankRoleNormalizesToEmpty | ai-resume-analyzer-main/src/data/jobs.js:253 | a whitespace-only role normalises to the empty string |
| Roles.NormalizeIdempotentWithoutResidue | ai-resume-analyzer-main/src/data/jobs.js:253 | normalising twice gives the same result when no `fullstack` is left after the first pass |
| Roles.NormalizeIdempotentIff | ai-resume-analyzer-main/src/data/jobs.js:253 | normalising a normalised role changes it exactly when it still holds a `fullstack` |
| Roles.ReplaceFirstLength | ai-resume-analyzer-main/src/data/jobs.js:253 | replacing an occurrence changes the length by the difference of the two strings |
| Roles.ReplaceFirstAtStart | ai-resume-analyzer-main/src/data/jobs.js:253 | an occurrence at index 0 is the one `replace` rewrites |
| Roles.NormalizeOfNormalText | ai-resume-analyzer-main/src/data/jobs.js:253 | on lower-case trimmed text normalising is only the `fullstack` rewrite |
| Roles.NormalizeOfPlainRole | ai-resume-analyzer-main/src/data/jobs.js:253 | a role whose lower-cased form is already trimmed and lacks a letter of `fullstack` normalises to that lower-cased form |
| Roles.NormalizeLeavesSecondFullStack | ai-resume-analyzer-main/src/data/jobs.js:253 | `"fullstackfullstack"` normalises to `"full stackfullstack"`, and normalising that again changes it: only the first occurrence is rewritten |
| Jobs.JobTable | ai-resume-analyzer-main/src/data/jobs.js:15-240 | the 23 listings in declaration order, each with its id and title |
| Jobs.TitleMatches | ai-resume-analyzer-main/src/data/jobs.js:256-261 | the test inside the `filter`: the normalised title contains the role, or the role contains it (defines the relation `Jobs.MatchingJobsSpec` states the filter by) |
| Jobs.MatchingJobs | ai-resume-analyzer-main/src/data/jobs.js:255-261 | the `filter` over the listings; what it keeps, and in which order, is stated by `Jobs.MatchingJobsSpec` |
| Jobs.MatchingJobsSpec | ai-resume-analyzer-main/src/data/jobs.js:255-261 | a listing is kept exactly when its normalised title contains the role or is contained in it, and the kept listings are a subsequence of the table |
| Jobs.MatchingJobsEmptyRole | ai-resume-analyzer-main/src/data/jobs.js:260 | the empty role is contained in every title, so every listing is kept |
| Jobs.RecommendedJobs | ai-resume-analyzer-main/src/data/jobs.js:249 | a falsy role (absent or empty) gets no listings |
| Jobs.RecommendedJobsSpec | ai-resume-analyzer-main/src/data/jobs.js:253-261 | for a truthy role a listing is recommended exactly when its title matches the normalised role, in table order |
| Jobs.RecommendedJobsIgnoreCaseAndPadding | ai-resume-analyzer-main/src/data/jobs.js:253 | letter case and whitespace around a non-empty role do not change the recommended listings |
| Jobs.BlankRoleGetsEveryJob | ai-resume-analyzer-main/src/data/jobs.js:249-261 | a whitespace-only role passes the truthiness test and gets every listing |
| JobExamples.PlainTitle | ai-resume-analyzer-main/src/data/jobs.js:256 | a title lacking a letter of `fullstack` is only lower-cased |
| JobExamples.FullStackTitle | ai-resume-analyzer-main/src/data/jobs.js:256 | a title whose only `f` starts `full ` holds no `fullstack` and is only lower-cased |
| JobExamples.NoTitleMatchBy | ai-resume-analyzer-main/src/data/jobs.js:260-261 | a title and a role that each hold a character the other lacks (or are longer) do not match |
| JobExamples.FrontendNormalized | ai-resume-analyzer-main/src/data/jobs.js:253 | "Frontend Developer" normalises to "frontend developer" |
| JobExamples.FrontendMatch | ai-resume-analyzer-main/src/data/jobs.js:85-86 | the listing titled "Frontend Developer" matches the role "frontend developer" |
| JobExamples.MissesJob0 | ai-resume-analyzer-main/src/data/jobs.js:18-19 | the title "MERN Stack Developer" does not match the role "frontend developer" |
| JobExamples.MissesJob1 | ai-resume-analyzer-main/src/data/jobs.js:27-28 | the title "Junior MERN Developer" does not match the role "frontend developer" |
| JobExamples.MissesJob2 | ai-resume-analyzer-main/src/data/jobs.js:38-39 | the title "Senior Full Stack Developer" does not match the role "frontend developer" |
| JobExamples.MissesJob3 | ai-resume-analyzer-main/src/data/jobs.js:47-48 | the title "Full Stack Engineer" does not match the role "frontend developer" |
| JobExamples.MissesJob4 | ai-resume-analyzer-main/src/data/jobs.js:56-57 | the title "Lead Full Stack Developer" does not match the role "frontend developer" |
| JobExamples.MissesJob5 | ai-resume-analyzer-main/src/data/jobs.js:65-66 | the title "Junior Full Stack Dev" does not match the role "frontend developer" |
| JobExamples.MissesJob6 | ai-resume-analyzer-main/src/data/jobs.js:74-75 | the title "Full Stack JavaScript Engineer" does not match the role "frontend developer" |
| JobExamples.MissesJob8 | ai-resume-analyzer-main/src/data/jobs.js:94-95 | the title "Senior Frontend Engineer" does not match the role "frontend developer" (neither contains the other) |
| JobExamples.MissesJob9 | ai-resume-analyzer-main/src/data/jobs.js:105-106 | the title "Backend Engineer" does not match the role "frontend developer" |
| JobExamples.MissesJob10 | ai-resume-analyzer-main/src/data/jobs.js:114-115 | the title "Senior Backend Developer" does not match the role "frontend developer" |
| JobExamples.MissesJob11 | ai-resume-analyzer-main/src/data/jobs.js:125-126 | the title "AI/ML Engineer" does not match the role "frontend developer" |
| JobExamples.MissesJob12 | ai-resume-analyzer-main/src/data/jobs.js:134-135 | the title "Machine Learning Developer" does not match the role "frontend developer" |
| JobExamples.MissesJob13 | ai-resume-analyzer-main/src/data/jobs.js:145-146 | the title "Lead Data Scientist" does not match the role "frontend developer" |
| JobExamples.MissesJob14 | ai-resume-analyzer-main/src/data/jobs.js:154-155 | the title "Junior Data Scientist" does not match the role "frontend developer" |
| JobExamples.MissesJob15 | ai-resume-analyzer-main/src/data/jobs.js:165-166 | the title "Business Analyst" does not match the role "frontend developer" |
| JobExamples.MissesJob16 | ai-resume-analyzer-main/src/data/jobs.js:174-175 | the title "System Analyst" does not match the role "frontend developer" |
| JobExamples.MissesJob17 | ai-resume-analyzer-main/src/data/jobs.js:185-186 | the title "Senior Data Analyst" does not match the role "frontend developer" |
| JobExamples.MissesJob18 | ai-resume-analyzer-main/src/data/jobs.js:194-195 | the title "Product Data Analyst" does not match the role "frontend developer" |
| JobExamples.MissesJob19 | ai-resume-analyzer-main/src/data/jobs.js:205-206 | the title "DevOps Engineer" does not match the role "frontend developer" |
| JobExamples.MissesJob20 | ai-resume-analyzer-main/src/data/jobs.js:214-215 | the title "Product Manager" does not match the role "frontend developer" |
| JobExamples.MissesJob21 | ai-resume-analyzer-main/src/data/jobs.js:223-224 | the title "Senior DevOps Engineer" does not match the role "frontend developer" |
| JobExamples.MissesJob22 | ai-resume-analyzer-main/src/data/jobs.js:232-233 | the title "Technical Product Manager" does not match the role "frontend developer" |
| JobExamples.OnlyJob7Matches | ai-resume-analyzer-main/src/data/jobs.js:15-240 | no listing of the table but the one at position 7 matches "frontend developer" |
| JobExamples.FrontendDeveloperJobs | ai-resume-analyzer-main/src/data/jobs.js:85-101 | "Frontend Developer" gets exactly one listing, job "3" |
| Keywords.FullStackKeywords | ai-resume-analyzer-main/src/data/keywords.js:12-15 | the keywords of "Full Stack Developer", in order |
| Keywords.MernKeywords | ai-resume-analyzer-main/src/data/keywords.js:19-22 | the keywords of "MERN Stack Developer", in order |
| Keywords.FrontendKeywords | ai-resume-analyzer-main/src/data/keywords.js:26-29 | the keywords of "Frontend Developer", in order |
| Keywords.BackendKeywords | ai-resume-analyzer-main/src/data/keywords.js:33-36 | the keywords of "Backend Developer", in order |
| Keywords.AiMlKeywords | ai-resume-analyzer-main/src/data/keywords.js:40-43 | the keywords of "AI/ML Engineer", in order |
| Keywords.DataScientistKeywords | ai-resume-analyzer-main/src/data/keywords.js:47-50 | the keywords of "Data Scientist", in order |
| Keywords.DevOpsKeywords | ai-resume-analyzer-main/src/data/keywords.js:54-57 | the keywords of "DevOps Engineer", in order |
| Keywords.ProductManagerKeywords | ai-resume-analyzer-main/src/data/keywords.js:61-64 | the keywords of "Product Manager", in order |
| Keywords.DataAnalystKeywords | ai-resume-analyzer-main/src/data/keywords.js:68-71 | the keywords of "Data Analyst", in order |
| Keywords.KeywordGroups | ai-resume-analyzer-main/src/data/keywords.js:9-73 | the nine groups in declaration order, each role with its keyword list |
| Keywords.RoleKeys | ai-resume-analyzer-main/src/data/keywords.js:98-109 | the ten alias keys with their target roles, in insertion order, the order `Object.entries` visits them |
| Keywords.RoleMatch | ai-resume-analyzer-main/src/data/keywords.js:87-92 | the direct test: the lower-cased group role equals the role, contains it, or is contained in it (used by `Keywords.FirstDirect`) |
| Keywords.AliasHit | ai-resume-analyzer-main/src/data/keywords.js:112-114 | an alias selects a group when the role contains its key and a group has exactly its target role (used by `Keywords.FirstAlias`) |
| Keywords.FirstDirect | ai-resume-analyzer-main/src/data/keywords.js:87-92 | `find` with the direct test: the index returned matches, and no group before it (or none at all, when nothing is returned) matches |
| Keywords.GroupNamed | ai-resume-analyzer-main/src/data/keywords.js:113 | the exact, case-sensitive lookup of a group by role name: a found group has that name, and none has it when nothing is found |
| Keywords.FirstAlias | ai-resume-analyzer-main/src/data/keywords.js:111-116 | the first alias in table order that the role contains and whose target names a group; none before it qualifies |
| Keywords.KeywordsFor | ai-resume-analyzer-main/src/data/keywords.js:84-121 | the result is empty or exactly one group's keyword list |
| Keywords.RecommendedKeywords | ai-resume-analyzer-main/src/data/keywords.js:82-121 | a falsy role gets no keywords; otherwise the result is empty or exactly one group's keyword list, returned as it stands |
| Keywords.ScanAliases | ai-resume-analyzer-main/src/data/keywords.js:111-116 | the loop over the aliases returns at the first alias `FirstAlias` finds, with that group's keywords, and nothing when there is none |
| Keywords.GetRecommendedKeywords | ai-resume-analyzer-main/src/data/keywords.js:81-122 | the source's control flow (falsy test, direct `find`, alias loop) computes `RecommendedKeywords` |
| Keywords.AliasTargetsExist | ai-resume-analyzer-main/src/data/keywords.js:98-109 | every alias targets a group that exists in the table |
| Keywords.KeywordsForDirect | ai-resume-analyzer-main/src/data/keywords.js:87-94 | when a group matches directly, the first such group supplies the keywords |
| Keywords.KeywordsForAlias | ai-resume-analyzer-main/src/data/keywords.js:96-116 | with no direct match, the first alias that selects a group (the role contains its key and its target exists) supplies the keywords; earlier contained keys whose target is missing are passed over |
| Keywords.KeywordsForNone | ai-resume-analyzer-main/src/data/keywords.js:121 | with neither a direct match nor an alias hit there are no keywords |
| Keywords.DirectMatchWins | ai-resume-analyzer-main/src/data/keywords.js:87-94 | on the real tables, the first directly matching group wins |
| Keywords.FirstAliasWins | ai-resume-analyzer-main/src/data/keywords.js:98-116 | on the real tables, with no direct match the first alias the role contains selects the group its target names |
| Keywords.NoMatchNoKeywords | ai-resume-analyzer-main/src/data/keywords.js:121 | on the real tables, no direct match and no alias means no keywords |
| Keywords.BlankRoleGetsFirstGroup | ai-resume-analyzer-main/src/data/keywords.js:84-94 | a whitespace-only role gets the Full Stack Developer keywords |
| KeywordExamples.JuniorMernNormalized | ai-resume-analyzer-main/src/data/keywords.js:84 | "Junior MERN Developer" normalises to "junior mern developer" |
| KeywordExamples.JuniorMernNoDirect | ai-resume-analyzer-main/src/data/keywords.js:87-92 | no group matches "junior mern developer" directly |
| KeywordExamples.JuniorMernAlias | ai-resume-analyzer-main/src/data/keywords.js:99 | "junior mern developer" contains the first alias, `mern` |
| KeywordExamples.MernTarget | ai-resume-analyzer-main/src/data/keywords.js:18 | the alias `mern` names the group at position 1, MERN Stack Developer |
| KeywordExamples.JuniorMernKeywordsFor | ai-resume-analyzer-main/src/data/keywords.js:96-116 | for "junior mern developer" the alias phase returns the MERN Stack Developer keywords |
| KeywordExamples.JuniorMernKeywords | ai-resume-analyzer-main/src/data/keywords.js:96-99 | "Junior MERN Developer" gets the MERN Stack Developer keywords through the alias `mern` |
| KeywordExamples.EmailMarketerNormalized | ai-resume-analyzer-main/src/data/keywords.js:84 | "Email Marketer" normalises to "email marketer" |
| KeywordExamples.EmailMarketerNoDirect | ai-resume-analyzer-main/src/data/keywords.js:87-92 | no group matches "email marketer" directly |
| KeywordExamples.EmailMarketerAliases | ai-resume-analyzer-main/src/data/keywords.js:103-112 | "email marketer" contains the alias `ai` and none of the four aliases before it |
| KeywordExamples.AiTarget | ai-resume-analyzer-main/src/data/keywords.js:39 | the alias `ai` names the group at position 4, AI/ML Engineer |
| KeywordExamples.EmailMarketerKeywordsFor | ai-resume-analyzer-main/src/data/keywords.js:103-116 | for "email marketer" the alias phase returns the AI/ML Engineer keywords |
| KeywordExamples.EmailMarketerKeywords | ai-resume-analyzer-main/src/data/keywords.js:103-112 | "Email Marketer" gets the AI/ML Engineer keywords: aliases match as raw substrings |
| KeywordExamples.OverlordNormalized | ai-resume-analyzer-main/src/data/keywords.js:84 | "Chief Regional Overlord" normalises to "chief regional overlord" |
| KeywordExamples.OverlordNoDirect | ai-resume-analyzer-main/src/data/keywords.js:87-92 | no group matches "chief regional overlord" directly |
| KeywordExamples.OverlordNoAlias | ai-resume-analyzer-main/src/data/keywords.js:111-116 | "chief regional overlord" contains none of the aliases |
| KeywordExamples.OverlordKeywords | ai-resume-analyzer-main/src/data/keywords.js:121 | "Chief Regional Overlord" gets no keywords |
| Projects.ProjectTable | ai-resume-analyzer-main/src/data/projects.js:8-143 | the 17 project ideas in declaration order (ids "1" to "14", "mern-1", "mern-2", "15"), each with its id, title, description, technologies and difficulty |
| Projects.RoleKeywords | ai-resume-analyzer-main/src/data/projects.js:160-171 | the ten role keys with their search tokens, in insertion order, the order `Object.entries` visits them |
| Projects.SearchTokens | ai-resume-analyzer-main/src/data/projects.js:174-184 | the gathered tokens, or `[role]` when none are gathered; `Projects.BuildSearchTokens` computes it and `Projects.SearchTokensFallback`/`Projects.SearchTokensGathered` state both cases |
| Projects.ProjectText | ai-resume-analyzer-main/src/data/projects.js:188 | the searchable text: title, description and the technologies joined by spaces, separated by spaces and lower-cased |
| Projects.ProjectMatches | ai-resume-analyzer-main/src/data/projects.js:190 | `some`: the project's text contains at least one of the tokens (the relation `Projects.MatchingProjectsSpec` states the filter by) |
| Projects.MatchingProjects | ai-resume-analyzer-main/src/data/projects.js:186-191 | the final `filter` with `some`; what it keeps, and in which order, is stated by `Projects.MatchingProjectsSpec` |
| Projects.AliasTokensMembership | ai-resume-analyzer-main/src/data/projects.js:174-179 | a token is gathered exactly when some alias the role contains lists it |
| Projects.BuildSearchTokens | ai-resume-analyzer-main/src/data/projects.js:174-184 | the loop and its fallback compute `SearchTokens`: the tokens of every contained alias in table order, or `[role]` when there are none |
| Projects.SearchTokensFallback | ai-resume-analyzer-main/src/data/projects.js:182-184 | with no alias contained the only token is the normalised role |
| Projects.SearchTokensGathered | ai-resume-analyzer-main/src/data/projects.js:182 | when a contained alias lists tokens, the gathered tokens are used unchanged |
| Projects.AliasTokensSingle | ai-resume-analyzer-main/src/data/projects.js:175-179 | when exactly one alias is contained, the tokens are that alias's list |
| Projects.AliasTokensNone | ai-resume-analyzer-main/src/data/projects.js:175-179 | when no alias is contained, nothing is gathered |
| Projects.MatchingProjectsSpec | ai-resume-analyzer-main/src/data/projects.js:186-191 | a project is kept exactly when its text contains some token, and the kept projects are a subsequence of the table |
| Projects.MatchingProjectsUseTokenSet | ai-resume-analyzer-main/src/data/projects.js:190 | reordering or duplicating tokens does not change the result |
| Projects.RecommendedProjects | ai-resume-analyzer-main/src/data/projects.js:153 | a falsy role gets no projects |
| Projects.GetRecommendedProjects | ai-resume-analyzer-main/src/data/projects.js:152-192 | the source's control flow (falsy test, token loop, filter) computes `RecommendedProjects` |
| Projects.RecommendedProjectsIgnoreCaseAndPadding | ai-resume-analyzer-main/src/data/projects.js:156 | letter case and whitespace around a non-empty role do not change the recommended projects |
| Projects.MatchingProjectsEmptyToken | ai-resume-analyzer-main/src/data/projects.js:188-190 | the empty token is contained in every project text, so every project is kept |
| Projects.BlankRoleGetsEveryProject | ai-resume-analyzer-main/src/data/projects.js:153-191 | a whitespace-only role gets every project |
| Projects.DevOpsNormalized | ai-resume-analyzer-main/src/data/projects.js:156 | "DevOps Engineer" normalises to "devops engineer" |
| Projects.DevOpsKeyWitnesses | ai-resume-analyzer-main/src/data/projects.js:161-165 | "devops engineer" contains `devops` and none of the first five other alias keys |
| Projects.DevOpsKeyAbsences | ai-resume-analyzer-main/src/data/projects.js:166-170 | "devops engineer" contains none of the last four other alias keys |
| Projects.DevOpsKeys | ai-resume-analyzer-main/src/data/projects.js:160-171 | of the alias keys, "devops engineer" contains only `devops` |
| Projects.DevOpsTokens | ai-resume-analyzer-main/src/data/projects.js:169 | the tokens for "devops engineer" are exactly the five `devops` tokens |
| Projects.DevOpsRecommendations | ai-resume-analyzer-main/src/data/projects.js:174-191 | "DevOps Engineer" gets the projects that contain one of the five `devops` tokens |
| Projects.TitleTokenMatches | ai-resume-analyzer-main/src/data/projects.js:188-190 | a project whose lower-cased title contains a token is kept |
| Projects.CiCdPipelineRecommended | ai-resume-analyzer-main/src/data/projects.js:96-102 | project "12", CI/CD Pipeline, is among the DevOps recommendations |
| Projects.KubernetesClusterRecommended | ai-resume-analyzer-main/src/data/projects.js:103-109 | project "13", Kubernetes Cluster Setup, is among the DevOps recommendations |
| KvList.GlobToRegex | backend/controllers/kvController.js:9-10 | `^` followed by the pattern with its metacharacters escaped and then each `*` replaced by `.*`; its meaning is stated by `KvList.GlobToRegexRoundTrip` |
| KvList.Translate | backend/controllers/kvController.js:9-10 | the two replacements as one pass, character by character; `KvList.TwoPassesAreOnePass` proves it equal to them |
| KvList.TwoPassesAreOnePass | backend/controllers/kvController.js:9-10 | the two chained global replacements act as one character-by-character translation |
| KvList.ExpandStarsConcat | backend/controllers/kvController.js:10 | the `*` replacement works character by character |
| KvList.TranslateConcat | backend/controllers/kvController.js:9-10 | the translation distributes over concatenation |
| KvList.DecodeTranslate | backend/controllers/kvController.js:9-10 | decoding the translation of a pattern gives the pattern back |
| KvList.TranslateDecode | backend/controllers/kvController.js:9-10 | whatever decodes is the translation of what it decodes to |
| KvList.GlobToRegexRoundTrip | backend/controllers/kvController.js:9-10 | the expression starts with `^` and the rest reads back as the pattern: each metacharacter escaped by exactly one backslash, each `*` as `.*`, every other character (`?` included) kept, in order |
| KvList.GlobToRegexInjective | backend/controllers/kvController.js:9-10 | different patterns give different expressions |
| KvList.TranslateLength | backend/controllers/kvController.js:9-10 | the translation is one character longer per metacharacter and per star |
| KvList.GlobToRegexLength | backend/controllers/kvController.js:9-10 | length of the expression = 1 + pattern length + number of metacharacters + number of stars |
| KvList.GlobToRegexNotEndAnchored | backend/controllers/kvController.js:9-10 | the expression never ends in an unescaped `$`: keys are matched by prefix |
| KvList.QuantifiersOfTranslate | backend/controllers/kvController.js:9-11 | scanning the translation of a pattern finds a quantifier with nothing to repeat exactly when the pattern starts badly for what precedes it or has a `?` after a `??` or a `*?` |
| KvList.GlobToRegexAccepted | backend/controllers/kvController.js:9-11 | `new RegExp` accepts the built expression exactly when the pattern does not start with `?` and has no `?` after a `??` or a `*?` |
| KvList.ListFilter | backend/controllers/kvController.js:6-12 | no filter exactly for an absent or empty pattern; a syntax error (the 500 of lines 21-24) exactly for a pattern that is not compilable; otherwise an expression starting with `^` that reads back as the pattern |
| KvList.CompilableFilter | backend/controllers/kvController.js:8-11 | a non-empty compilable pattern filters by its expression |
| KvList.NothingToRepeatExamples | backend/controllers/kvController.js:9-11 | the patterns `?abc`, `a???` and `*??` make `new RegExp` throw |
| KvList.LazyQuantifierExamples | backend/controllers/kvController.js:9-11 | the patterns `a??` and `*?` give the lazy expressions `^a??` and `^.*?` |
| KvList.ListResponse | backend/controllers/kvController.js:16-20 | pairs exactly when `returnValues` is the string `"true"`, bare keys otherwise |
| KvList.ListResponseSpec | backend/controllers/kvController.js:16-20 | one entry per record, in the order found, with the record's key, and with its value when values are asked for |
| KvList.ListedKeysIgnoreReturnValues | backend/controllers/kvController.js:16-20 | asking for values never changes which keys are listed or their order |
| AiChat.MissingKeyAnalysis | backend/controllers/aiController.js:15-27 | the fixed analysis returned without an API key: the configuration summary, ATS score 0 with the one tip "Config Error", and three empty lists (stated by `AiChat.Chat`) |
| AiChat.PromptOf | backend/controllers/aiController.js:38-62 | the prompt the loops build, message by message; `AiChat.Flatten` proves the loops compute it |
| AiChat.ContextOf | backend/controllers/aiController.js:38-62 | the resume context the loops build, message by message; `AiChat.Flatten` proves the loops compute it |
| AiChat.Clean | backend/controllers/aiController.js:92 | both fence removals and then `trim`; `AiChat.CleanHasNoFence`, `AiChat.CleanIsTrimmed` and `AiChat.CleanIdempotent` state its properties |
| AiChat.AppendPart | backend/controllers/aiController.js:42-56 | one part adds its contribution: the new prompt is the old one plus `PartPrompt(part)` (a text part's text and a newline) and the new context the old one plus `PartContext(part, files)` (an existing file's block) |
| AiChat.AppendParts | backend/controllers/aiController.js:41-57 | the part loop of one message leaves the prompt as the old one plus `PartsPrompt(ps)` and the context as the old one plus `PartsContext(ps, files)`, the parts taken in order |
| AiChat.PartsSnoc | backend/controllers/aiController.js:41-57 | one more part extends the prompt and the context by that part's contribution |
| AiChat.PromptOfSnoc | backend/controllers/aiController.js:39-61 | one more message extends the prompt by that message's contribution |
| AiChat.ContextOfSnoc | backend/controllers/aiController.js:39-61 | one more message extends the context by that message's contribution |
| AiChat.Flatten | backend/controllers/aiController.js:38-62 | the nested loops build exactly `FlatPrompt` and `FlatContext`: each text part's text and a newline (a plain content and a newline), message then part order; each existing file's block in the context; both empty without a message array |
| AiChat.PromptIgnoresNonText | backend/controllers/aiController.js:42-56 | file parts and parts of other types never reach the prompt: only the texts of the text parts, in order, decide it |
| AiChat.PromptOfConcat | backend/controllers/aiController.js:39-61 | messages contribute to the prompt in order: flattening distributes over concatenation |
| AiChat.NoFilesNoContext | backend/controllers/aiController.js:47-55 | with no existing file the context stays empty |
| AiChat.PartsNoContext | backend/controllers/aiController.js:47-55 | the parts of a message add nothing to the context when no file exists |
| AiChat.ContextShowsFile | backend/controllers/aiController.js:44-52 | the text of each existing file appears in the context between the two markers |
| AiChat.RemoveFenceLeavesNone | backend/controllers/aiController.js:92 | removing every fence leaves none, not even one formed by backticks the removal brings together |
| AiChat.CleanHasNoFence | backend/controllers/aiController.js:92 | the cleaned reply contains no three backticks |
| AiChat.CleanIsTrimmed | backend/controllers/aiController.js:92 | the cleaned reply has no whitespace at either end |
| AiChat.CleanKeepsPlainReply | backend/controllers/aiController.js:92 | a reply with no fence and no surrounding whitespace is left as it is |
| AiChat.CleanIdempotent | backend/controllers/aiController.js:92 | cleaning a cleaned reply changes nothing |
| AiChat.Chat | backend/controllers/aiController.js:15-94 | without an API key the fixed analysis (score 0, tips ["Config Error"], empty lists); otherwise the cleaned model text for the flattened context and prompt, with no fence and no surrounding whitespace |
| Feedback.TierBy | ai-resume-analyzer-main/src/components/ATS.jsx:22-26 | the three-way classification by `score > high` and `score > low` that each card writes with its own cut-offs |
| AtsCard.Look | ai-resume-analyzer-main/src/components/ATS.jsx:22-50 | the five ternaries of the card as written; `AtsCard.LookIsOneTier` proves they agree on one tier |
| Feedback.TierByMonotone | ai-resume-analyzer-main/src/components/ATS.jsx:22-26 | with the lower cut-off below the higher one, a higher score never gets a worse tier |
| AtsCard.LookIsOneTier | ai-resume-analyzer-main/src/components/ATS.jsx:22-50 | gradient, icon, subtitle, icon background and score colour always come from the same tier |
| AtsCard.AtsTierBands | ai-resume-analyzer-main/src/components/ATS.jsx:22-40 | green with "Great Job!" exactly from 70, yellow with the warning icon exactly from 50 to 69, red with "Needs Improvement" exactly up to 49 |
| AtsCard.AtsTierMonotone | ai-resume-analyzer-main/src/components/ATS.jsx:22-26 | a higher score never gets a worse card tier |
| AtsCard.SuggestionRowsSpec | ai-resume-analyzer-main/src/components/ATS.jsx:63-66 | one row per suggestion, in order and with its text; the check mark and the emerald badge exactly when the type is `"good"` |
| DetailsPanel.ScoreBadge | ai-resume-analyzer-main/src/components/Details.jsx:18-40 | the badge ternaries as written; `DetailsPanel.BadgeIsOneTier` proves they agree on one tier |
| DetailsPanel.TipHeading | ai-resume-analyzer-main/src/components/Details.jsx:91 | the heading of a tip; stated by `DetailsPanel.TipHeadingSpec` |
| DetailsPanel.Sections | ai-resume-analyzer-main/src/components/Details.jsx:112-155 | the four accordion items in source order; stated by `DetailsPanel.SectionsSpec` |
| DetailsPanel.BadgeIsOneTier | ai-resume-analyzer-main/src/components/Details.jsx:18-40 | badge background, icon and text colour always come from the same tier |
| DetailsPanel.BadgeTierBands | ai-resume-analyzer-main/src/components/Details.jsx:20-40 | green exactly from 70, yellow exactly from 40 to 69, red exactly up to 39; the check icon exactly for green |
| DetailsPanel.BadgeTierMonotone | ai-resume-analyzer-main/src/components/Details.jsx:20-24 | a higher score never gets a worse badge |
| DetailsPanel.TipHeadingSpec | ai-resume-analyzer-main/src/components/Details.jsx:91 | the heading is "Strength" exactly when the type is `'good'`, "Improvement Area" otherwise |
| DetailsPanel.SectionsSpec | ai-resume-analyzer-main/src/components/Details.jsx:112-155 | the sections are Tone & Style, Content, Structure, Skills in that order, each with its own score and tips |
| SummaryPanel.CategoryColors | ai-resume-analyzer-main/src/components/Summary.jsx:13-28 | the `if` chain of the row as written; `SummaryPanel.CategoryColorsAreOneTier` proves it picks all three classes from one tier |
| SummaryPanel.Rows | ai-resume-analyzer-main/src/components/Summary.jsx:71-75 | the five rows in source order; stated by `SummaryPanel.RowsSpec` |
| SummaryPanel.CategoryColorsAreOneTier | ai-resume-analyzer-main/src/components/Summary.jsx:13-28 | the three classes are always assigned together from one tier: emerald exactly from 80, amber from 50 to 79, rose below 50 |
| SummaryPanel.RowTierMonotone | ai-resume-analyzer-main/src/components/Summary.jsx:15-27 | a higher score never gets a worse colour |
| SummaryPanel.ImpactScore | ai-resume-analyzer-main/src/components/Summary.jsx:75 | a missing Impact and an Impact score of 0 both show 85; any other score shows as it is |
| SummaryPanel.ImpactScoreNeverZero | ai-resume-analyzer-main/src/components/Summary.jsx:75 | the Impact row never shows 0 |
| SummaryPanel.RowsSpec | ai-resume-analyzer-main/src/components/Summary.jsx:71-75 | five rows, Tone & Style, Content, Structure, Skills, Impact, each of the first four with its category's score and Impact with `ImpactScore`, which is never 0 |

## Left out

- Unicode: `toLowerCase` is modelled on ASCII letters only. `trim` is modelled on the space and the characters `\t` to `\r` only. JavaScript's other Unicode whitespace and case mappings are not modelled.
- Job listings keep only `id` and `title`. Company, location, type, salary and posting date take no part in matching.
- `Projects.DevOpsRecommendations`: this is weaker than the promise that "DevOps Engineer" gets exactly projects "12" and "13". The model proves that the tokens are exactly the five `devops` tokens, and that projects "12" and "13" are kept. It does not prove that each of the other fifteen projects misses all five tokens. Their texts run past a hundred characters, which is beyond what the verifier settles about string literals here.
- The score cards are modelled on integer scores. `Summary.jsx` compares with `>=` 80 and `>=` 50, which is the tier classification with cut-offs 79 and 49 for whole numbers. Fractional scores are not modelled.
- `SummaryPanel.ImpactScore`: a category's score is a required integer, so an `impact` present without a `score` cannot be written; `impact?.score || 85` shows 85 for it too, as for a missing `impact`.
- `AiChat.Chat`: the missing-key reply is returned as the analysis object itself, not as its `JSON.stringify` text.
- The Gemini call is a function parameter of `AiChat.Chat`, applied to the context and the prompt. The prompt template around them is not modelled.
- The file lookups of `chat` (`fs.existsSync`, `fs.readFileSync`, `pdf-parse`) are one function parameter, from a path to the file's text or nothing. Path joining with the uploads directory is not modelled.
- Non-string `content` values are modelled as strings. JavaScript's coercion of other values when concatenating them into the prompt is not modelled.
- Logging, the `try`/`catch` error responses and the HTTP plumbing of both controllers are left out.
- `KVStore.find` is left out: the listing is modelled on the records the query returned. Running the regular expression against keys is also not modelled; the model proves the expression's form, its round trip and when it compiles.
- `KvList.RegexAccepts` follows the regular expression grammar only for what the translation can build: characters, escapes, `.`, `^`, `$` and the quantifiers `*`, `+`, `?`. Groups, classes and braces never occur unescaped in it.
- The markup of `ATS.jsx`, `Details.jsx` and `Summary.jsx` is not modelled, beyond the classes, icons and texts chosen from the score and the order of the rows.
- The rest of the repository is not part of this model: routes, the API client, authentication, file storage, PDF rendering and utilities.

# ProFel matching core, modelled in Dafny

ProFel compares a developer's skills, gathered from GitHub, LinkedIn,
LeetCode and Codeforces profiles, with the skills a job asks for, and
explains the result as a score, the matched and missing skills, and one of
five recommendation messages. This project models the Python core that does
this and proves what it computes.

The core has three matchers:

- `match_utils` is a token-overlap scorer. Each job skill is matched exactly
  after normalisation, or partially through shared tokens. The weighted
  matches give a percentage, and the percentage's band picks the
  recommendation message.
- `matching_utils` and `match_service` are two containment matchers, one
  over typed records and one over plain dicts. A requirement scores the best
  importance-times-level among the profile skills whose normalised name
  equals it, contains it or is contained in it.
- `matching_engine` is a set-overlap matcher. It blends the share of the
  job's skills that the profile has with an embedding similarity. It also
  merges one person's profiles from several platforms and credits each
  platform its share of the score.

Around the matchers sit these helpers:

- the normalisers of skill names (`jobs_utils`, `data_utils`);
- the comma-separated skill text of a hand-entered job (`jobs_service`);
- the chunking and skill gathering of `text_processor`;
- the aggregation of platform data in `profile_manager`;
- the dict merging and response envelopes of `common_utils`;
- the filtering of scraped job listings (`scrapers/job_sites.py`);
- the shaping of scraped GitHub pages into a profile (`scrapers/github.py`,
  `web-version/backend/utils/github_utils.py`).

How the model represents the Python:

- Python values read from JSON or from a scraper are the `Json` datatype. A
  dict is a list of key/value pairs in insertion order, as Python dicts keep
  it. The one exception is `match_utils.compute_match_score`, whose skills
  are typed records (see "Left out").
- The Python exceptions that the code raises on badly shaped input
  (`TypeError`, `AttributeError`, `KeyError`) are the `Err` side of a
  `Result`. On the inputs the model can express, each one is raised where
  the source would raise it.
- Floats are exact reals. Python's `round` (half to even) is written out in
  `PyRound`.
- `sorted(set(...))` of strings is a strictly increasing list
  (`SortedStrings`).
- Collaborators whose code is not part of this model are parameters of the
  functions that call them:
  - the skill-name normaliser of `utils/skill_utils.py`;
  - the language-model skill extractor;
  - the embedding generator and its cosine similarity;
  - the scrapers' page fetches;
  - the clock that stamps a response.
- Loops that accumulate a result are methods with loop invariants. Each
  method is proved equal to a specification function, and the properties
  of the source are lemmas about that function.

## Model

| member | source | states |
|---|---|---|
| CommonUtils.MergeSpec | backend/utils/common_utils.py:93-103 | the merged dict's keys are exactly the keys of both inputs; a merge of a dict is a dict (no key twice); at every key it holds what `Combine` prescribes for the two inputs' values |
| CommonUtils.MergeCases | backend/utils/common_utils.py:95-101 | a key of only one input keeps that input's value; two dict values are merged recursively; on any other clash the second value wins exactly when `overwrite` holds, otherwise the first is kept |
| CommonUtils.MergeKeys | web-version/backend/utils/common_utils.py:93-101 | after the loop has seen the first `n` entries of `dict2`, the keys are those of `dict1` and of those entries |
| CommonUtils.MergeDistinct | backend/utils/common_utils.py:95-101 | every step of the loop keeps the result free of repeated keys |
| CommonUtils.MergeAt | web-version/backend/utils/common_utils.py:95-101 | after `n` entries, each key holds the combination of `dict1`'s value and the value among those entries |
| CommonUtils.MergeDictionaries | backend/utils/common_utils.py:81-103 | the loop over `dict2` on a copy of `dict1` computes the merge; `dict1` is a value and is left as it was |
| CommonUtils.MergeEntry | backend/utils/common_utils.py:96-101 | one pass of the loop body: recursive merge of two dicts, insertion of a new key, replacement only under `overwrite` |
| CommonUtils.MissingFieldsSpec | backend/utils/common_utils.py:117-123 | a field is reported iff it is required and absent or None; no more reports than required fields; the report is empty iff every required field is present and not None |
| CommonUtils.MissingFieldsOrder | web-version/backend/utils/common_utils.py:117-123 | the reported fields form a subsequence of the required list, so they keep its order |
| CommonUtils.ValidateRequiredFields | backend/utils/common_utils.py:106-123 | the appending loop returns exactly the missing fields |
| CommonUtils.ErrorResponse | backend/utils/common_utils.py:137-146 | a dict with `success` false, the message under `error`, the timestamp, and a `details` entry iff the details are truthy (then holding them); no other keys |
| CommonUtils.SuccessResponse | backend/utils/common_utils.py:160-165 | a dict with exactly the keys success (true), message, data and timestamp, holding the given values |
| CommonUtils.ResponsesDiffer | backend/utils/common_utils.py:137-165 | error and success envelopes always differ in `success`; a success envelope has no `error` and an error envelope no `data` |
| DataUtils.LookupFrom | utils/data_utils.py:120-122 | the table scan finds a name iff some entry from position `i` on lists it, and returns that entry's canonical name |
| DataUtils.Normalize | utils/data_utils.py:103-124 | a lower-cased name that is a listed variant becomes a canonical name listing it; any other name comes back lower-cased |
| DataUtils.VariantsDisjoint | utils/data_utils.py:106-117 | no variant is listed under two canonical names, so the result of the lookup does not depend on the table order |
| DataUtils.CanonicalNames | utils/data_utils.py:106-117 | no canonical name is itself a variant, and every canonical name is lower-case |
| DataUtils.NormalizeLower | utils/data_utils.py:103-124 | the result never contains an upper-case letter |
| DataUtils.NormalizeIdempotent | utils/data_utils.py:103-124 | normalising a normalised name changes nothing |
| DataUtils.NormalizeOther | utils/data_utils.py:124 | a name whose lower-case form is no variant is returned lower-cased and otherwise unchanged |
| DataUtils.NormalizeJs | utils/data_utils.py:107 | "JS" becomes "javascript" |
| DataUtils.NormalizeNode | utils/data_utils.py:111 | "node" becomes "node.js" |
| DataUtils.NormalizeNodes | utils/data_utils.py:119-124 | "Nodes" becomes "nodes": only whole names are looked up, never substrings |
| DataUtils.IsCompleteVenue | utils/data_utils.py:15-17 | true iff every required key is a key of the venue |
| GitHubShaping.ProfileDict | scrapers/github.py:80-85 | a dict payload is kept, a non-empty list whose first element is a dict gives that element, anything else gives `{}` |
| GitHubShaping.RepoListSpec | scrapers/github.py:96-106 | at most `MAX_REPOS` (3) repositories; a list payload gives its first three; the slice raises exactly when the "projects" value is a truthy dict, number or boolean |
| GitHubShaping.SkillOfSpec | scrapers/github.py:113-116 | a raw skill is kept iff it is a string or a dict with "name"; what is kept is a dict with "name"; shaping it again gives it back |
| GitHubShaping.SkillsOfSpec | scrapers/github.py:112-116 | the skill loop keeps at most as many skills as it sees, each a dict with "name", and a second pass changes nothing |
| GitHubShaping.SkillsSpec | scrapers/github.py:109-116 | at most 10 skills come out, each a dict with "name" |
| GitHubShaping.ExtractSkills | web-version/backend/utils/github_utils.py:219-227 | the appending loop over the first ten raw skills computes the skill list |
| GitHubShaping.ShapeProjectSpec | scrapers/github.py:121-130 | a project with "name" keeps every field but "technologies", which becomes the first five of a list, a lone value wrapped in a list, or `[]` when absent; shaping twice equals shaping once |
| GitHubShaping.ProjectsOfSpec | scrapers/github.py:118-133 | at most as many projects as repositories, each a dict with "name" and a technologies list of at most five |
| GitHubShaping.ExtractProjects | web-version/backend/utils/github_utils.py:229-244 | the project loop computes the shaped projects, in order |
| GitHubShaping.GitHubInfoSpec | scrapers/github.py:135-149 | the result fails iff the repositories slice raises; otherwise the keys are name, bio, location, skills, projects, github_stats in that order; the name is the profile's or the username; bio and location are the profile's or ""; there are at most 10 well-formed skills and at most 3 shaped projects; github_stats holds followers, following, contributions, stars and repositories in that order, each copied from the profile or 0 when the profile lacks it |
| GitHubShaping.ScrapeGitHubProfile | web-version/backend/utils/github_utils.py:191-262 | the post-fetch steps of `scrape_github_profile` build the profile dict the specification function describes |
| JobsUtils.UpToSep | backend/utils/jobs_utils.py:19 | the first piece of a split is a prefix of the text without separators, ended by a separator or by the end of the text |
| JobsUtils.Pieces | backend/utils/jobs_utils.py:19 | splitting gives at least one piece, and no piece contains one of `,` `;` newline and bullet |
| JobsUtils.PiecesRoundTrip | backend/utils/jobs_utils.py:19 | the text is its pieces with the cut runs put back between them, and every cut run is a non-empty block of separators; as no piece holds a separator, the cuts are at the maximal runs, as `re.split(r'[,;\n•]+', text)` makes them |
| JobsUtils.KeptOrder | backend/utils/jobs_utils.py:22-27 | the items are the cleaned pieces at strictly increasing positions, so they keep the order of the text, and a piece gives an item exactly when it cleans to at least two characters |
| JobsUtils.CleanInfix | backend/utils/jobs_utils.py:25 | `strip().strip('.')` only cuts characters off the ends: the cleaned piece occurs in the piece |
| JobsUtils.SkillsOfTextSpec | backend/utils/jobs_utils.py:15-29 | for a non-empty text: the text is the pieces joined by non-empty separator runs, each item is the cleaned form of a piece and occurs in it, items follow the pieces' order, and exactly the pieces cleaning to two or more characters give items |
| JobsUtils.CleanNoSep | backend/utils/jobs_utils.py:25 | stripping whitespace and dots from a separator-free piece cannot bring in a separator |
| JobsUtils.KeptItems | web-version/backend/utils/jobs_utils.py:22-27 | from separator-free pieces, every kept item has at least two characters and no separator |
| JobsUtils.ExtractSkillsFromText | backend/utils/jobs_utils.py:5-29 | no text or the empty text gives no items; every item has at least two characters and contains none of the separators; the loop computes the cleaned, kept pieces in order |
| JobsUtils.KeepPieces | web-version/backend/utils/jobs_utils.py:22-27 | the loop over the split pieces appends exactly the cleaned pieces of length at least two, in order |
| JobsUtils.NormalizeSkillName | backend/utils/jobs_utils.py:32-96 | the step-by-step rewriting of the name (lower-case, prefix, suffix, each rule of the table in turn, stop words, join, strip) computes the normalised name |
| JobsUtils.DropStopWords | backend/utils/jobs_utils.py:88-90 | no kept token is a stop word, and every kept token comes from the input |
| JobsUtils.NormalizeClean | backend/utils/jobs_utils.py:42-96 | the normalised name has no upper-case letter, has whitespace only as single spaces between other characters, and none of its tokens is a stop word |
| JobsUtils.NormalizeEmpty | web-version/backend/utils/jobs_utils.py:42-43 | the empty name normalises to the empty name |
| JobsUtils.SkillImportance | backend/utils/jobs_utils.py:112-118 | 0.5 for an empty list, a position past the list or a total of 0; 1.0 for a total of 1 |
| JobsUtils.ImportanceRange | backend/utils/jobs_utils.py:120-125 | for a position inside a ranking of at least two, the importance lies in [0.1, 1.0]; it is 1.0 at the first position and 0.1 at the last |
| JobsUtils.ImportanceMonotone | web-version/backend/utils/jobs_utils.py:120-125 | a later position never gets a higher importance |
| JobsUtils.JobLevel | backend/utils/jobs_utils.py:138-149 | the level is senior, entry or mid; senior iff a senior term occurs in the lower-cased title; entry iff no senior term but an entry term occurs; mid otherwise |
| JobsUtils.AnyInFrom | web-version/backend/utils/jobs_utils.py:141-145 | the scan over the term list is true iff some term occurs in the title |
| JobsUtils.JobDescription | backend/utils/jobs_utils.py:152-190 | the description always ends with "This position is located in {location}.", with "Remote" when no location is passed |
| JobsUtils.DescriptionUsesFirstFive | backend/utils/jobs_utils.py:179-183 | skills after the fifth make no difference to the description |
| JobsUtils.DescriptionWithoutSkills | web-version/backend/utils/jobs_utils.py:184-185 | with no skills the description contains the fixed sentence about relevant technologies |
| JobsService.ImportanceTenths | web-version/backend/services/jobs_service.py:22 | the importance of any position lies in [0.3, 1.0] |
| JobsService.ImportanceFormula | web-version/backend/services/jobs_service.py:22-25 | `round(max(0.3, 1.0 - 0.1 i), 1)` is exactly the position's importance in tenths |
| JobsService.ImportanceNonIncreasing | web-version/backend/services/jobs_service.py:22 | a later position never weighs more |
| JobsService.StripEach | web-version/backend/services/jobs_service.py:19 | one stripped piece per piece, at the same position |
| JobsService.Entry | web-version/backend/services/jobs_service.py:20-26 | a piece adds one requirement iff it is not blank |
| JobsService.Description | web-version/backend/services/jobs_service.py:33 | the description reads "Custom job description for ", the title, " at ", the company |
| JobsService.ProcessJobRequirements | web-version/backend/services/jobs_service.py:3-38 | the record built around the collected requirements is the specification's job record |
| JobsService.CollectRequirements | web-version/backend/services/jobs_service.py:17-26 | the enumerate loop appends exactly the requirements of the stripped non-blank pieces, each at its own position |
| JobsService.RequirementsExact | web-version/backend/services/jobs_service.py:18-26 | the requirements are exactly the non-blank stripped pieces at the importance of their positions, and there are no more of them than pieces |
| JobsService.RequirementsNonIncreasing | web-version/backend/services/jobs_service.py:18-26 | importances never increase along the list, all lie in [0.3, 1.0], and none is below the importance of the position after the last |
| JobsService.RequirementsClean | web-version/backend/services/jobs_service.py:18-20 | every requirement is a non-empty skill with no surrounding whitespace and no comma |
| JobsService.BlankKeepsPosition | web-version/backend/services/jobs_service.py:18-22 | in "A,,B" the blank entry keeps its position: A gets 1.0 and B gets 0.8 |
| JobsService.JobFields | web-version/backend/services/jobs_service.py:29-36 | the record has an empty URL, the given location or "Not specified", and the custom description naming title and company |
| Bands.BandOf | backend/utils/match_utils.py:147-156 | Excellent iff the percentage is at least 85, Good iff in [70, 85), Moderate iff in [50, 70), Weak iff in [30, 50), Poor iff below 30 |
| Bands.BandMonotone | backend/services/match_service.py:87-96 | a higher percentage never gets a lower band |
| MatchUtils.GenerateRecommendation | backend/utils/match_utils.py:137-156 | the message is the one of the percentage's band |
| MatchUtils.AdviceNamesBand | backend/utils/match_utils.py:148-156 | the five messages are pairwise different, so a message names its band |
| MatchUtils.RecommendationNamesBand | backend/utils/match_utils.py:137-156 | two percentages get the same message exactly when they fall in the same band |
| MatchUtils.NamedOnly | backend/utils/match_utils.py:42-50 | only job skills with a non-empty name take part, each one of the input's skills, no more of them than the input has |
| MatchUtils.ProfileKeys | backend/utils/match_utils.py:35-39 | the keys of the profile-skill dict are pairwise different |
| MatchUtils.TokenSimilarity | backend/utils/match_utils.py:82-96 | the similarity of two names lies in [0, 1] |
| MatchUtils.OverlapFacts | backend/utils/match_utils.py:92-96 | the shared tokens never outnumber the larger token set, so the ratio is at most 1 |
| MatchUtils.BestUpToIsMax | backend/utils/match_utils.py:80-101 | the inner loop's best score is at least every key's similarity, and is some key's similarity unless it is 0 |
| MatchUtils.BestByIsMax | backend/utils/match_utils.py:98-101 | a scan that keeps a later key only when strictly better ends with the maximum score, reached by some key unless 0 |
| MatchUtils.Outcome | backend/utils/match_utils.py:64-114 | a job name that is a profile key scores 1.0; any other score is positive, at most 1 and at least the threshold |
| MatchUtils.MatchesOf | backend/utils/match_utils.py:59-111 | at most one match per named job skill, each scoring 1.0 or a value in (0, 1] that reaches the threshold, with weighted score importance times score |
| MatchUtils.AllNames | backend/utils/match_utils.py:26 | the early-return name list exists iff every job skill has a "name" (otherwise KeyError), and then holds those names in order |
| MatchUtils.BestPartialMatch | backend/utils/match_utils.py:77-101 | the inner loop returns the best similarity over all keys and reports a match iff it is positive |
| MatchUtils.KeySimilarity | backend/utils/match_utils.py:82-96 | one pass of the inner loop computes the token similarity of the two names |
| MatchUtils.SimilarityOf | backend/utils/match_utils.py:91-96 | for two non-empty names with tokens the similarity is shared tokens over the larger token count |
| MatchUtils.NoSimilarity | backend/utils/match_utils.py:82-91 | an empty name or one without tokens scores 0 |
| MatchUtils.StepOne | backend/utils/match_utils.py:59-114 | each job skill adds one match (with its name, importance, score and weighted score) or one missing name, never both |
| MatchUtils.ScoreOne | backend/utils/match_utils.py:64-104 | the body of the outer loop gives the job skill's outcome: exact 1.0, else the best positive similarity reaching the threshold, else none |
| MatchUtils.ScoreNamed | backend/utils/match_utils.py:56-114 | the outer loop collects the matches and missing names of the named job skills in order, and the running score is the sum of the weighted scores |
| MatchUtils.ComputeMatchScore | backend/utils/match_utils.py:6-134 | the whole function computes the report of the specification function: early zero report, the loop, rounding and strengths |
| MatchUtils.EarlyReport | backend/utils/match_utils.py:22-28 | with no profile skills or no job skills the score is 0, there are no matches or strengths, and every job skill's name is missing in order; a job skill without "name" raises KeyError |
| MatchUtils.Partition | backend/utils/match_utils.py:59-114 | every named job skill lands exactly once in the matches or in the missing names: the two together hold the job's names as often as the job does |
| MatchUtils.MissingSource | backend/utils/match_utils.py:112-114 | a missing name belongs to a job skill that found no match |
| MatchUtils.MatchSource | backend/utils/match_utils.py:64-111 | a matched name belongs to a job skill that found a match |
| MatchUtils.MatchedNotMissing | backend/utils/match_utils.py:64-114 | no name is both matched and missing |
| MatchUtils.ExactMatch | backend/utils/match_utils.py:64-73 | an exact match after normalisation scores 1.0 and weighs its full importance |
| MatchUtils.StrengthsExact | backend/utils/match_utils.py:120-124 | the strengths are exactly the names of the matches with importance at least 0.7 and score at least 0.8 |
| MatchUtils.WeightedWithinTotal | backend/utils/match_utils.py:53-73 | with non-negative importances the running score lies between 0 and the total importance |
| MatchUtils.OverallBounds | backend/utils/match_utils.py:117-127 | with non-negative importances the rounded overall match lies in [0, 100] |
| MatchUtils.JobSkill | backend/utils/match_utils.py:217-233 | an entry is kept iff it is a dict with "name" or a string, and what is kept is a dict with "name" and "importance" |
| MatchUtils.JobSkillList | backend/utils/match_utils.py:209-235 | no more skills than entries, each a dict with "name" and "importance" |
| MatchUtils.ExtractJobSkills | backend/utils/match_utils.py:199-235 | the appending loop computes the kept entries, each a dict with "name" and "importance" |
| MatchUtils.JobSkillsKeepWeighted | backend/utils/match_utils.py:220-221 | a list of dicts that all have a name and an importance comes back unchanged |
| MatchUtils.JobSkillsFromStrings | backend/utils/match_utils.py:228-233 | a list of strings becomes one `{name, importance: 0.5}` per string, in order |
| MatchUtils.DefaultImportance | backend/utils/match_utils.py:222-227 | a named dict without importance becomes `{name, importance: 0.5}`, dropping its other fields |
| MatchUtils.ProfileSkillList | backend/utils/match_utils.py:172-181 | no more skills than entries, each a dict with "name" |
| MatchUtils.NormJ | backend/utils/match_utils.py:193 | normalising a skill's "name" fails (no `lower`) iff the value is truthy and not a string |
| MatchUtils.AnyNormalized | backend/utils/match_utils.py:193 | the `any` scan is false iff every earlier skill normalises without error to something else, true only when one normalises to the technology, and fails only with AttributeError |
| MatchUtils.AddTech | backend/utils/match_utils.py:189-194 | a non-string technology changes nothing; a string one is appended as `{name: tech}` iff no skill so far has the same normalised name |
| MatchUtils.HasNormalized | backend/utils/match_utils.py:193 | the scan over the skills computes the `any` |
| MatchUtils.AddTechsErr | backend/utils/match_utils.py:189-194 | once a technology raises, the rest of the list does not change the error |
| MatchUtils.AddProjectsErr | backend/utils/match_utils.py:185-194 | once a project raises, the rest of the projects do not change the error |
| MatchUtils.AddTechnologies | backend/utils/match_utils.py:188-194 | the technology loop of one project computes the additions |
| MatchUtils.ListedSkills | backend/utils/match_utils.py:172-181 | the first loop computes the listed skills, strings wrapped as `{name}` |
| MatchUtils.AddAllProjects | backend/utils/match_utils.py:184-194 | the project loop computes the additions and stops at the first error |
| MatchUtils.ExtractProfileSkills | backend/utils/match_utils.py:159-196 | the whole function computes the specification's profile skill list |
| MatchUtils.ProfileSkillsFresh | backend/utils/match_utils.py:169-196 | the profile's own skill entries come first and unchanged, and every technology added after them has a normalised name no earlier entry has |
| PyRound.RoundHalfEven | backend/utils/match_utils.py:127 | the rounded value lies within one half of the number, and a number exactly halfway between two integers goes to the even one |
| PyRound.RoundNearest | backend/utils/match_utils.py:127 | away from a tie, the result is the one integer closer than one half |
| PyRound.RoundWithin | backend/utils/match_utils.py:127 | rounding keeps a number in [lo, hi] with whole bounds inside [lo, hi] |
| PyRound.RoundMonotone | backend/utils/match_utils.py:127 | rounding never reverses the order of two numbers |
| ContainmentMatch.LevelTable | utils/matching_utils.py:49-55 | the level factor is 1.0, 0.7 or 0.4: 0.7 exactly for "intermediate", 0.4 exactly for "beginner" or "basic" |
| ContainmentMatch.BestOf | utils/matching_utils.py:31-63 | the inner loop fails iff some matching candidate's level raises; otherwise the best value is non-negative, at least every matching candidate's value, 0 with level 0 when nothing scores, and otherwise the value and level of the first candidate reaching it |
| ContainmentMatch.HighestMatch | backend/services/match_service.py:23-58 | the nested loop computes `highest_match` and `candidate_level` of one requirement |
| ContainmentMatch.BestOfErr | backend/services/match_service.py:30-58 | once a candidate raises, the later candidates do not change the error |
| ContainmentMatch.HighestWithin | utils/matching_utils.py:57-63 | with a non-negative importance a requirement never scores more than its importance |
| ContainmentMatch.ZeroIffNoMatch | utils/matching_utils.py:43-63 | with a positive importance a requirement scores 0 exactly when no profile skill matches it |
| ContainmentMatch.EmptyMatchesAll | utils/matching_utils.py:43-45 | the empty name is contained in every name, and every name matches itself |
| ContainmentMatch.MissingOf | utils/matching_utils.py:80-83 | no more missing skills than matches |
| ContainmentMatch.StrengthsOf | utils/matching_utils.py:86-89 | no more strengths than matches |
| ContainmentMatch.MissingNotStrength | utils/matching_utils.py:80-89 | no entry is both missing and a strength |
| ContainmentMatch.MissingCount | backend/services/match_service.py:75-78 | the missing list has one skill per entry scoring 0 |
| ContainmentMatch.MissingStrengthsDisjoint | backend/services/match_service.py:75-84 | with distinct required skills no skill is both missing and a strength |
| ContainmentMatch.MissingFrom | utils/matching_utils.py:80-83 | every missing skill is one of the required skills |
| ContainmentMatch.StrengthsFrom | utils/matching_utils.py:86-89 | every strength is one of the required skills |
| ContainmentMatch.RepeatedSkillInBoth | backend/services/match_service.py:75-84 | a skill required twice can be both missing and a strength |
| ContainmentMatch.ScoreWithinImportance | utils/matching_utils.py:66 | entries scoring within their non-negative importance add up to at most the total importance |
| ContainmentMatch.OverallWithin | utils/matching_utils.py:77 | the overall match lies in [0, 100] and is 100 when every requirement scores its full importance |
| MatchingUtils.LevelFactor | utils/matching_utils.py:48-55 | no level or an empty one gives 1.0; 0.7 exactly for a level whose lower case is "intermediate", 0.4 exactly for "beginner" or "basic" |
| MatchingUtils.CandidatesOf | utils/matching_utils.py:38-40 | one candidate per profile skill, in order, with the normalised name and the level factor |
| MatchingUtils.MatchReq | utils/matching_utils.py:69-74 | the entry names the requirement's skill and importance and holds the best value and level of the inner loop |
| MatchingUtils.MatchesOf | utils/matching_utils.py:30-74 | one entry per requirement, at the requirement's position |
| MatchingUtils.Candidates | utils/matching_utils.py:38-40 | the loop normalises every profile skill's name |
| MatchingUtils.MatchOne | utils/matching_utils.py:31-74 | one pass of the requirement loop computes the requirement's entry |
| MatchingUtils.ScoreRequirements | utils/matching_utils.py:30-74 | the requirement loop collects the entries in order, and the running score is their total |
| MatchingUtils.MatchWith | utils/matching_utils.py:10-113 | the whole function computes the match of the specification function for a given normaliser |
| MatchingUtils.MatchProfileToJob | utils/matching_utils.py:10-113 | the same with names normalised by the variant table |
| MatchingUtils.ReqTotalIsImportance | utils/matching_utils.py:26 | the total importance is the total of the entries' importances |
| MatchingUtils.OneMatchPerRequirement | utils/matching_utils.py:69-74 | one entry per requirement in order, with its skill and importance, scoring between 0 and the importance when that is non-negative |
| MatchingUtils.MissingIffNoMatch | utils/matching_utils.py:43-83 | a requirement with positive importance is missing exactly when no profile skill's normalised name equals, contains or is contained in its own |
| MatchingUtils.OverallPercent | utils/matching_utils.py:77 | with non-negative importances the overall match lies in [0, 100] |
| MatchingUtils.InsertDesc | utils/matching_utils.py:141 | inserting one match gives the matches plus that one, as a multiset |
| MatchingUtils.SortDesc | utils/matching_utils.py:141 | the sort is a permutation of its input |
| MatchingUtils.InsertDescSorted | utils/matching_utils.py:141 | inserting into a list sorted by descending score keeps it sorted |
| MatchingUtils.SortDescSorted | utils/matching_utils.py:141 | the sort yields scores in non-increasing order |
| MatchingUtils.InsertDescStable | utils/matching_utils.py:141 | inserting into a sorted list places the new match after every match with its score |
| MatchingUtils.SortDescStable | utils/matching_utils.py:141 | the sort is stable, as `list.sort` is: the matches with any one score keep their relative order |
| MatchingUtils.MatchesAcross | utils/matching_utils.py:133-138 | one match per job, in job order |
| MatchingUtils.MatchAllJobs | utils/matching_utils.py:133-138 | the inner loop matches the profile against each job in turn |
| MatchingUtils.BatchWith | utils/matching_utils.py:116-149 | one entry per profile, in order, naming the profile and holding its matches sorted by score |
| MatchingUtils.BatchMatchProfilesToJobs | utils/matching_utils.py:116-149 | the same with names normalised by the variant table |
| MatchingUtils.BatchEntryFacts | utils/matching_utils.py:132-147 | each entry holds one match per job, best first, as a rearrangement of the matches in job order |
| MatchService.Number | backend/services/match_service.py:53 | a number reads as itself; anything that is neither number nor bool raises TypeError |
| MatchService.ReqImportance | backend/services/match_service.py:18 | `req["importance"]` raises TypeError on a non-dict and KeyError on a dict without the key |
| MatchService.ImportancesSpec | backend/services/match_service.py:18 | the importance pass succeeds exactly when every requirement has a readable importance, and then lists them in order |
| MatchService.ImportancesOf | backend/services/match_service.py:18 | a successful importance pass gives one importance per requirement, and every requirement it read is a dict |
| MatchService.Requirements | backend/services/match_service.py:18 | a job without "requirements" raises KeyError |
| MatchService.SkillName | backend/services/match_service.py:32 | a dict's "name" when it has one, a non-dict itself |
| MatchService.LevelOf | backend/services/match_service.py:43-50 | 1.0 without a "level" entry; a non-string level raises AttributeError and nothing else does; otherwise 1.0, 0.7 or 0.4 |
| MatchService.CandidatesOf | backend/services/match_service.py:30-50 | one candidate per profile skill, in order |
| MatchService.ProfileCandidates | backend/services/match_service.py:30 | a profile without "skills" raises KeyError; the candidate levels are from the level table |
| MatchService.MatchReqSpec | backend/services/match_service.py:22-69 | a non-dict requirement raises TypeError, one without "skill" KeyError; a successful pass names the requirement's skill and importance and holds the best value and level of the inner loop |
| MatchService.MatchesSpec | backend/services/match_service.py:22-69 | a successful requirement loop holds at each position what one pass makes of that requirement |
| MatchService.MatchesOf | backend/services/match_service.py:22-69 | a successful requirement loop gives one entry per requirement |
| MatchService.Echo | backend/services/match_service.py:100-102 | the echoed fields are read iff the profile has "name" and the job "title" and "company"; otherwise KeyError |
| MatchService.SumImportances | backend/services/match_service.py:18 | the `sum` pass computes the importances and their total, or the first error |
| MatchService.ImportancesErr | backend/services/match_service.py:18 | once a requirement raises, the rest do not change the error |
| MatchService.MatchesErr | backend/services/match_service.py:22-69 | once a requirement raises in the loop, the rest do not change the error |
| MatchService.ProfileSkills | backend/services/match_service.py:30-35 | the loop over the profile's skills computes the candidates |
| MatchService.ScoreRequirements | backend/services/match_service.py:22-69 | the requirement loop computes the entries and their total, or the first error |
| MatchService.MatchProfileToJob | backend/services/match_service.py:5-108 | the whole function computes the result of the specification function, or the error it raises |
| MatchService.NoRequirements | backend/services/match_service.py:18-108 | with no requirements only the echoed fields can fail, and the score is 0 with no entries, no missing skills and no strengths |
| MatchService.OneMatchPerRequirement | backend/services/match_service.py:22-69 | a successful match has one entry per requirement in order, naming its "skill" and importance, and scoring the best value of the inner loop |
| MatchService.OverallPercent | backend/services/match_service.py:72 | with non-negative importances the overall match lies in [0, 100] |
| MatchService.MatchImportances | backend/services/match_service.py:18 | the total importance is the total of the entries' importances |
| MatchService.BadLevelOnlyWhenMatched | backend/services/match_service.py:38-45 | a pass over a dict requirement and a listed profile raises iff some profile skill whose name matches has a non-string "level", and then raises AttributeError; unmatched skills' levels are never read |
| MatchingEngine.KeySet | backend/utils/matching_engine.py:277-278 | `set(xs)` exists iff every entry can be stored (otherwise TypeError), and holds exactly the entries, values Python takes for equal counted once |
| MatchingEngine.KeySetSize | backend/utils/matching_engine.py:170-171 | a set built from a list has no more elements than the list |
| MatchingEngine.ScoreWith | backend/utils/matching_engine.py:276-321 | the fallback score comes exactly when the profile's skill set, the job's skills, their set or the similarity failed; otherwise the overall score is 0.6·overlap + 0.4·similarity, the similarity is 0.5 without embeddings, the experience match is 0.7, and the details count the profile skills, the job skills and the matched skills |
| MatchingEngine.CalculateMatchScoreSpec | backend/utils/matching_engine.py:252-321 | `calculate_match_score` gives the fallback score iff extracting either skill list, building either text, putting either list in a set, or embedding and comparing raises; otherwise matched = set(P) ∩ set(J), missing = set(J) − set(P), skill match = matched/len(J), overall = 0.6·skill match + 0.4·similarity (0.5 without embeddings), experience 0.7, and the three counts |
| MatchingEngine.ScoreFacts | backend/utils/matching_engine.py:277-280 | the matched skills are set(P) ∩ set(J), the matched and missing skills are disjoint and together give set(J), and the overlap lies in [0, 1], 0 for an empty job list |
| MatchingEngine.ScoreShape | backend/utils/matching_engine.py:277-280 | matched is set(P) ∩ set(J), missing is set(J) \ set(P), and the overlap is their count over the job list's length |
| MatchingEngine.OverallFraction | backend/utils/matching_engine.py:283-321 | with a similarity in [0, 1] the overall score and the vector similarity lie in [0, 1], the 0.5 fallbacks included |
| MatchingEngine.TruthyStrings | backend/utils/matching_engine.py:400 | the filter-and-join step succeeds iff every truthy part is a string (else TypeError); what it keeps are non-empty strings, no more than the parts |
| MatchingEngine.TruthyStringsOrder | backend/utils/matching_engine.py:400 | `filter(None, parts)` keeps exactly the truthy parts, at strictly increasing positions, so in their original order |
| MatchingEngine.JoinPartsSpec | backend/utils/matching_engine.py:400 | `' '.join(filter(None, parts))` fails iff some truthy part is not a string; otherwise it is the truthy parts, in order, joined with single spaces |
| MatchingEngine.JoinSkills | backend/utils/matching_engine.py:395 | joining a skills list succeeds iff every skill is a string |
| MatchingEngine.RepoParts | backend/utils/matching_engine.py:373-376 | at most two parts per repository |
| MatchingEngine.ProfileTextSpec | backend/utils/matching_engine.py:362-383 | the parts are bio and description (of a dict "data", else of the profile), then each dict repository's description and language; the text fails iff iterating the repositories fails or a truthy part is not a string, and is otherwise the truthy parts, in order, joined with single spaces |
| MatchingEngine.GetProfileText | backend/utils/matching_engine.py:362-383 | the appending loop builds the profile text of the specification function |
| MatchingEngine.JobTextListed | backend/utils/matching_engine.py:385-400 | for a string title and description and a list of string skills, the job text is the non-empty ones of title, description and the space-joined skills, joined with single spaces |
| MatchingEngine.JobTextWritten | backend/utils/matching_engine.py:385-400 | a string "skills" is used as it is, after the title and the description, dropping empty parts |
| MatchingEngine.JobTextUnlisted | backend/utils/matching_engine.py:385-400 | "skills" that are neither a list nor a string add nothing; the text is the non-empty ones of title and description |
| MatchingEngine.JobTextFails | backend/utils/matching_engine.py:385-400 | the job text raises TypeError exactly when the title or the description is a truthy non-string, or "skills" is a list with a non-string entry |
| MatchingEngine.ProfileSkills | backend/utils/matching_engine.py:323-344 | a top-level "skills" list is returned as it is; otherwise a non-empty `data.skills` list is used before any text extraction |
| MatchingEngine.JobSkills | backend/utils/matching_engine.py:346-350 | a "skills" list is returned as it is |
| MatchingEngine.MatchProfileToJob | backend/utils/matching_engine.py:162-196 | without both embeddings the vector similarity is 0, and the combined score is 0.6 times the overlap plus 0.4 times the similarity |
| MatchingEngine.MatchProfileToJobSpec | backend/utils/matching_engine.py:162-196 | the match fails exactly when a skill set cannot be built or the similarity fails; otherwise the overlap is set(P) ∩ set(J), its share is the overlap's size over len(J), 0 when J is empty, and lies in [0, 1]; the vector similarity is the cosine, or 0 without both embeddings; the combined score is 0.6 times the share plus 0.4 times the similarity |
| MatchingEngine.OverlapCountsDuplicates | backend/utils/matching_engine.py:170-171 | the overlap divides by the job list's length with duplicates: ["go"] against ["go", "go"] gives 0.5 |
| MatchingEngine.DataField | backend/utils/matching_engine.py:447 | a "data" entry that is not a dict raises AttributeError |
| MatchingEngine.ExtendFrom | backend/utils/matching_engine.py:447-476 | `extend` appends the items of `data[key]` (default `[]`) after what the list already held |
| MatchingEngine.AddLinkedIn | backend/utils/matching_engine.py:450-461 | the LinkedIn step changes only experience, education and certifications, appending the profile's own lists to each |
| MatchingEngine.AddLeetCode | backend/utils/matching_engine.py:463-472 | the LeetCode step changes only problem solving and submissions |
| MatchingEngine.AddProfile | backend/utils/matching_engine.py:436-476 | one pass appends the profile's platform and adds its skills; it appends the profile's repositories only for github, its experience, education and certifications only for linkedin, and its projects for every platform; id and name stay |
| MatchingEngine.CombineProfiles | backend/utils/matching_engine.py:417-418 | the empty dict comes back exactly for no profiles |
| MatchingEngine.PlatformsOf | backend/utils/matching_engine.py:437-438 | one platform per profile, in order |
| MatchingEngine.CombineFacts | backend/utils/matching_engine.py:436-479 | the loop appends one platform per profile in order, adds the union of their skill sets, and keeps id and name |
| MatchingEngine.CombineLists | backend/utils/matching_engine.py:445-476 | the loop appends, in profile order, the projects of every profile, the repositories of the github profiles, and the experience, education and certifications of the linkedin profiles |
| MatchingEngine.GatherNone | backend/utils/matching_engine.py:445-461 | no profile on a platform contributes nothing from that platform |
| MatchingEngine.CombineProfilesFacts | backend/utils/matching_engine.py:417-481 | the combined profile lists every profile's platform in order, holds the union of their skills, takes its id and name from the first profile, and holds the projects of all profiles in order |
| MatchingEngine.CombineProfilesSources | backend/utils/matching_engine.py:445-461 | the repositories are those of the github profiles, and the experience, education and certifications those of the linkedin profiles, concatenated in profile order |
| MatchingEngine.CombineProfilesAbsent | backend/utils/matching_engine.py:445-461 | without a github profile there are no repositories; without a linkedin profile no experience, education or certifications |
| MatchingEngine.CombineProfilesLoop | backend/utils/matching_engine.py:407-481 | the loop over the profiles computes the combined profile |
| MatchingEngine.CombineErr | backend/utils/matching_engine.py:436-476 | once a profile raises, the later ones do not change the error |
| MatchingEngine.Contribution | backend/utils/matching_engine.py:510-517 | github gets min(0.6, 0.5 s), linkedin min(0.4, 0.3 s), leetcode min(0.3, 0.2 s), any other platform 0 |
| MatchingEngine.ContributionBounds | backend/utils/matching_engine.py:508-517 | with a non-negative score every share lies between 0 and 0.6 and never exceeds the score |
| MatchingEngine.ContributionsSpec | backend/utils/matching_engine.py:505-519 | the shares exist iff every platform can be a dict key; the keys are then the set of platforms and each platform holds its own share |
| MatchingEngine.CanonShare | backend/utils/matching_engine.py:508-517 | platforms Python takes for the same key get the same share, so a later duplicate does not change the map |
| MatchingEngine.MatchCombined | backend/utils/matching_engine.py:483-521 | with no profiles, the combined profile is `{}`: it is scored as an empty profile, with no platforms, the name "Combined Profile" and no contributions |
| MatchingEngine.MatchCombinedFails | backend/utils/matching_engine.py:483-521 | a combined match fails exactly when combining the profiles fails or some platform cannot be a dict key |
| MatchingEngine.MatchCombinedFacts | backend/utils/matching_engine.py:483-521 | a combined match lists one platform per profile in order, carries the first profile's name, and credits each platform its capped share of the overall score |
| ProfileManager.Strings | backend/utils/profile_manager.py:79 | the skills can be sorted iff every one is a string (otherwise TypeError), and then they are those strings in order |
| ProfileManager.AddPlatform | backend/utils/profile_manager.py:62-76 | one pass stores the platform's data under its name, extends the projects by the GitHub projects, records the contributions iff the data has them, and fails iff the skills or projects cannot be taken in |
| ProfileManager.AggregateOk | backend/utils/profile_manager.py:62-79 | the aggregation fails, with TypeError, exactly when some platform's skills or GitHub projects cannot be taken in |
| ProfileManager.AggregateSkills | backend/utils/profile_manager.py:66-79 | the skill list is strictly increasing, so sorted and duplicate-free, and holds exactly the skills of every platform |
| ProfileManager.AggregatePlatforms | backend/utils/profile_manager.py:62-64 | `platforms` has exactly the input's platform names as keys, each mapped to its own data |
| ProfileManager.AggregateContributions | web-version/backend/utils/profile_manager.py:75-76 | `contributions` has a key exactly for the platforms whose data has "contributions", holding that value |
| ProfileManager.AggregateProjects | backend/utils/profile_manager.py:71-72 | projects come only from the "github" entry: none without one, and that entry's projects in order with it |
| ProfileManager.AggregateProfileData | web-version/backend/utils/profile_manager.py:53-81 | the loop over the platforms computes the aggregated profile, or the error it raises |
| ProfileManager.AddSkills | backend/utils/profile_manager.py:68 | `skills.update(names)` on the sorted list standing for the set keeps it strictly sorted and inserts every name |
| ProfileManager.AggregateErr | backend/utils/profile_manager.py:62-76 | once a platform raises, the later ones do not change the error |
| SortedStrings.SortedUnique | backend/utils/profile_manager.py:79 | two strictly sorted lists with the same elements are the same list, so `sorted(set)` is determined by the set |
| SortedStrings.SortedDistinct | backend/utils/text_processor.py:175-177 | a strictly sorted list names each string once |
| SortedStrings.InsertAllSorted | backend/utils/profile_manager.py:68-79 | inserting names into a strictly sorted list keeps it strictly sorted, and its elements become the old ones plus the names |
| TextProcessor.CrlfReplaces | backend/utils/text_processor.py:37 | the line-break scan is `replace("\r\n", "\n")`: the text cut at every "\r\n" and glued with "\n" |
| TextProcessor.CrlfVisible | backend/utils/text_processor.py:37 | normalising line breaks drops carriage returns only: with every carriage return taken out, the text before and after is the same, so every other character is kept, in order |
| TextProcessor.CollapseNoTriple | backend/utils/text_processor.py:40 | after collapsing, no three line feeds are left in a row |
| TextProcessor.CollapseFixed | web-version/backend/utils/text_processor.py:40 | a text without three line feeds in a row is left as it is, so collapsing twice is collapsing once |
| TextProcessor.CollapseVisible | backend/utils/text_processor.py:40 | collapsing drops line feeds only: with every line feed taken out, the text before and after is the same, so every other character is kept, in order |
| TextProcessor.CollapseRun | backend/utils/text_processor.py:40 | a maximal run of line feeds at the start becomes exactly "\n\n" when it has three or more, and stays as it is otherwise |
| TextProcessor.CollapseAround | backend/utils/text_processor.py:40 | between two texts, a maximal run of three or more line feeds becomes exactly "\n\n" and a shorter one stays, and the texts on either side collapse on their own |
| TextProcessor.Paragraphs | backend/utils/text_processor.py:37-43 | there is at least one paragraph; the paragraphs joined with "\n\n" give the normalised text back, none of them holds "\n\n", and the normalised text has no three line feeds in a row |
| TextProcessor.ParagraphsVisible | backend/utils/text_processor.py:37-43 | normalising and splitting into paragraphs keeps every visible character, in order |
| TextProcessor.Sentences | backend/utils/text_processor.py:51 | a paragraph splits into at least one sentence |
| TextProcessor.SplitAfterVisible | backend/utils/text_processor.py:51 | splitting into sentences drops whitespace only |
| TextProcessor.SplitAfterNoBreak | backend/utils/text_processor.py:51 | no sentence still holds a sentence mark followed by whitespace: every cut was made |
| TextProcessor.SplitAfterGaps | backend/utils/text_processor.py:51 | the text is its sentences with the cut runs put back between them, and every cut run is non-empty whitespace |
| TextProcessor.SplitAfterCuts | backend/utils/text_processor.py:51 | every sentence but the last ends in `.`, `!` or `?` (or is the empty first one right after a mark), and no sentence after the first starts with whitespace |
| TextProcessor.SentencesSplit | backend/utils/text_processor.py:51 | the split is `re.split(r'(?<=[.!?])\s+')` exactly: the paragraph is its sentences with non-empty whitespace runs between them, every sentence but the last ends in a mark, each run is maximal, and no sentence still holds a mark followed by whitespace |
| TextProcessor.SplitAfterWhole | web-version/backend/utils/text_processor.py:51 | a paragraph without a cut point is one sentence |
| TextProcessor.StepVisible | backend/utils/text_processor.py:53-66 | one packing step moves the piece's visible characters into the chunks and loses none |
| TextProcessor.ChunksVisible | backend/utils/text_processor.py:36-70 | chunking loses and reorders nothing but whitespace: the chunks read one after the other have the text's visible characters |
| TextProcessor.ChunksWithin | backend/utils/text_processor.py:48-70 | no chunk is longer than a bound that `max_chunk_size` and every packed piece respect |
| TextProcessor.OneChunk | backend/utils/text_processor.py:43-70 | a text of at most `max_chunk_size` characters without carriage returns or blank lines is one chunk, the text stripped |
| TextProcessor.OverlapShape | backend/utils/text_processor.py:73-87 | overlap keeps the number of chunks and the first chunk; every later chunk is its base chunk after the last `overlap` characters of the chunk before when `overlap` is positive and that chunk is longer than `overlap`, and after nothing otherwise |
| TextProcessor.OverlapRoundTrip | web-version/backend/utils/text_processor.py:73-87 | the base chunks can be recovered from the overlapped ones, so overlap loses nothing |
| TextProcessor.Recover | web-version/backend/utils/text_processor.py:73-87 | recovering gives as many chunks as asked for |
| TextProcessor.UndoOne | backend/utils/text_processor.py:80-85 | dropping the first `overlap` characters of an overlapped chunk gives the base chunk back |
| TextProcessor.OverlapNone | backend/utils/text_processor.py:73-89 | with overlap 0 or a single chunk the chunks come back as they are |
| TextProcessor.OverlappedAt | backend/utils/text_processor.py:74-85 | chunk `i` of the result is chunk `i` with the previous chunk's tail in front, except the first |
| TextProcessor.AddPiece | backend/utils/text_processor.py:53-66 | the `if` written twice in `chunk_text` is one packing step |
| TextProcessor.PackSentences | backend/utils/text_processor.py:51-58 | the sentence loop packs the sentences in order |
| TextProcessor.PackChunks | backend/utils/text_processor.py:45-70 | the paragraph loop with the last chunk added computes the base chunks |
| TextProcessor.AddOverlap | backend/utils/text_processor.py:72-89 | the overlap loop computes the overlapped chunks |
| TextProcessor.ChunkText | backend/utils/text_processor.py:24-89 | `chunk_text` is packing followed by overlap |
| TextProcessor.SkillsOfSpec | backend/utils/text_processor.py:169-175 | the skill list is strictly sorted and holds exactly the skills some chunk yields |
| TextProcessor.GatherSkills | backend/utils/text_processor.py:169-172 | the loop over the chunks gathers their skills into the set |
| TextProcessor.ProcessProfileText | web-version/backend/utils/text_processor.py:157-177 | the skills are the sorted, duplicate-free union of the chunks' skills, and the chunk count is the number of chunks with the default size 1000 and overlap 100 |
| JobSites.SiteName | scrapers/job_sites.py:210-217 | one of "indeed", "linkedin", "job_site": "indeed" iff the lower-cased URL contains it, "linkedin" iff it does not but contains "linkedin" |
| JobSites.PageCount | scrapers/job_sites.py:35 | the configured pages (1 when absent) capped at 2 |
| JobSites.PageUrls | scrapers/job_sites.py:68-69 | one URL per page from 1 to the page count, none for a count below 1 |
| JobSites.PageJobs | scrapers/job_sites.py:87-92 | a list is its own entries; a dict with "jobs" gives what iterating that value gives, failing exactly when it cannot be iterated; anything else gives no entries |
| JobSites.NormaliseRequirementSpec | scrapers/job_sites.py:110-124 | a requirement is kept iff it is a dict with "skill" or a string; a kept dict keeps every other field and gets an importance that is its own when numeric in [0, 1], 1.0 above, 0.0 below and 0.5 when missing or not a number |
| JobSites.NormaliseIdempotent | scrapers/job_sites.py:110-124 | normalising a normalised requirement changes nothing |
| JobSites.RequirementsSpec | scrapers/job_sites.py:108-126 | every kept requirement is shaped, there are no more of them than entries, and a second pass changes nothing |
| JobSites.NormaliseRequirements | scrapers/job_sites.py:109-126 | the requirement loop computes the kept, normalised requirements in order |
| JobSites.Ids | scrapers/job_sites.py:103 | one identifier per job, at the same position |
| JobSites.FinishedShaped | scrapers/job_sites.py:126-130 | an accepted job has all required fields and keeps its identifier; its "requirements" are the normalised list, its "url" is the page URL when it had none and its own otherwise, and every other field is unchanged |
| JobSites.AcceptKeeps | scrapers/job_sites.py:94-133 | an entry that is not a non-empty complete dict, or whose identifier was seen, leaves the state as it was; any other entry is appended finished with its identifier recorded, unless its requirements cannot be iterated (TypeError) |
| JobSites.AcceptValid | scrapers/job_sites.py:94-133 | one entry keeps the jobs complete and their identifiers distinct and recorded as seen, and appends at most one job |
| JobSites.ScanJobsValid | scrapers/job_sites.py:94-138 | the scan of a page keeps the state valid, stays within the cap and only appends |
| JobSites.JobsAfterAccept | scrapers/job_sites.py:133-138 | after an entry the scan stops on an error or when that entry reached the cap, and otherwise goes on with the rest of the page |
| JobSites.PagesAfterStep | scrapers/job_sites.py:140-142 | after a page the scan stops on an error or a full list, and otherwise goes on with the next page |
| JobSites.ScanPagesValid | scrapers/job_sites.py:68-142 | scanning the pages keeps the state valid |
| JobSites.ScrapeSpec | scrapers/job_sites.py:34-148 | at most `MAX_JOBS_PER_SITE` (5) jobs, each complete with a url and normalised requirements, no two with the same identifier |
| JobSites.IdentifierJoins | scrapers/job_sites.py:103-105 | the identifier joins title and company with "_", so ("a_b", "c") and ("a", "b_c") count as one job |
| JobSites.AcceptJob | scrapers/job_sites.py:95-133 | the body of the entry loop performs the skip checks, the requirement loop, the url default and the bookkeeping |
| JobSites.ScanPage | scrapers/job_sites.py:94-138 | the loop over a page's entries computes the page's scan |
| JobSites.ScanOnePage | scrapers/job_sites.py:73-138 | one page is fetched and scanned |
| JobSites.ScanAllPages | scrapers/job_sites.py:68-142 | the page loop scans pages 1 to the count in order until five jobs are kept |
| JobSites.ScrapeJobListings | scrapers/job_sites.py:18-148 | the whole function after the fetch computes the scrape of the specification function |

## Left out

- Python's `\b` word boundaries in `jobs_utils.normalize_skill_name` are modelled as substitution of whole whitespace-separated tokens.
- The `c++`, `c#`, `.net core`, `azure devops` and `data science` replacement rules of `jobs_utils.normalize_skill_name` are omitted.
  - The last three only rewrite the whitespace between their two words to one space, which the model's single-space join of tokens already gives.
  - The `c++` and `c#` rules differ from the model. The source joins a `c` token to a following token that starts with `++` or `#` and goes on with a word character: "c ++11" becomes "c++11" and "c #x" becomes "c#x" (backend/utils/jobs_utils.py:61-62). The model keeps the two tokens.
- The `ui/ux` rule is not modelled as a double rewrite. In the source, `ui/ux design` is rewritten again by the later `\bui\b` and `\bux\b` rules; the token abstraction does not see this.
- `utils/skill_utils.py` (`normalize_skill_name` of the dict matcher) is not part of this model. It is a parameter.
- The language-model skill extraction, including how `extract_skills_with_llm` parses the response, is a parameter.
- The embedding generation and cosine similarity of `matching_engine` are parameters.
- The browser page fetch of the scrapers is a parameter. So are its retries, back-off, sleeps, session ids, CSS selectors and logging. A fetch that raises, which `scrape_job_listings` skips (`except Exception: continue`, scrapers/job_sites.py:82-84), is modelled as a fetch returning a value that is neither a dict nor a list: the page adds no jobs.
- `str()` of a non-string title or company in `scrapers/job_sites.py` is the parameter `show`.
- The page URLs of `scrapers/job_sites.py` are computed up front in the specification function. The method still computes each one inside its loop, as the source does.
- The concurrency of `get_profile_data` (`asyncio.gather`) is not modelled. Neither is the misattribution its `zip` makes when a platform is skipped. The per-platform results are an input.
- Persistence, timestamps, uuids and file I/O are left out.
- `process_profile`, `process_job`, `match_profile_to_jobs` and `_extract_profile_text` of `matching_engine` call the database and the embedding model, so they are left out.
- `_calculate_experience_match` of `matching_engine` always returns a constant; it is modelled as that constant.
- The `"error": str(e)` entry of the fallback score of `calculate_match_score` (backend/utils/matching_engine.py:320) is not modelled; the fallback carries only the fixed 0.5 scores and empty skill sets.
- The `combined_` id prefix of a combined profile is not modelled.
- Python sets are modelled as Dafny sets or as strictly sorted lists.
- Floating-point rounding is not modelled: floats are exact reals.
- A NaN importance is not modelled.
- `str.lower` lowers ASCII letters only. Whitespace for `\s`, `str.split()` and `str.strip()` is the full `str.isspace()` set.
- In-place mutation and aliasing of the dicts and lists that the source updates are modelled on values.
- ProfileManager: any skill that is not a string raises `TypeError`. Python's `sorted` raises only on values it cannot compare. It accepts a union of numbers only, or a union that holds a single non-string such as `{None}`. Those inputs are not modelled.
- MatchUtils.ComputeMatchScore: skills are typed records with an optional string name and an optional number importance, not `Json` dicts. So the model does not capture these inputs:
  - a truthy name that is not a string, which raises AttributeError in `normalize_skill_name` (backend/utils/match_utils.py:36,45);
  - an importance of `None` or a non-number, which raises TypeError in `sum` (match_utils.py:53); the model reads a missing importance as 0.5;
  - a `"name": None` entry, which the early return (match_utils.py:26) lists as `None`, where the model reports KeyError;
  - a skill that is not a dict.
- JobsService: a missing location is modelled as an `Option`.
- TextProcessor.ProcessProfileText: the skill extractor is a parameter that returns strings. An extractor returning non-strings would make the source's `sorted` raise TypeError; the model cannot express that.
- The pages setting of the job-site scraper is an `Option<int>`.
- The `web-version/` copies of `jobs_utils.py`, `common_utils.py`, `text_processor.py` and `profile_manager.py` are identical to the `backend/` ones and are modelled once.
- DataUtils.IsDuplicateVenue: `is_duplicate_venue` is modelled as set membership, and its contract states no more than that.

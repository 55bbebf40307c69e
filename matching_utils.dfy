/**
 * The profile-to-job matcher over typed records: each job requirement is
 * scored by the containment matcher with level factors from the profile's
 * skill levels, and a batch matches every profile against every job, best
 * match first.
 */
module MatchingUtils {
  import opened Wrappers
  import opened Text
  import opened Bands
  import opened ContainmentMatch
  import DataUtils

  /** A profile skill: its name and, optionally, a level such as "Expert". */
  datatype Skill = Skill(name: string, level: Option<string>)

  /** The parts of a profile the matcher reads. */
  datatype Profile = Profile(name: string, skills: seq<Skill>)

  datatype Requirement = Requirement(skill: string, importance: real)

  /** The parts of a job listing the matcher reads. */
  datatype JobListing = JobListing(title: string, company: string, requirements: seq<Requirement>)

  datatype ProfileJobMatch = ProfileJobMatch(
    profileName: string,
    jobTitle: string,
    company: string,
    overallMatch: real,
    skillMatches: seq<SkillMatch<string>>,
    missingSkills: seq<string>,
    strengths: seq<string>,
    recommendation: string)

  /** One entry of the batch result: a profile's name and its matches, best first. */
  datatype BatchEntry = BatchEntry(profileName: string, matches: seq<ProfileJobMatch>)

  /** The level factor of a skill: a full match unless a non-empty level names a lower one. */
  function LevelFactor(level: Option<string>): (r: real)
    ensures r == 1.0 || r == 0.7 || r == 0.4
    ensures level.None? || level.value == "" ==> r == 1.0
    ensures r == 0.7 <==> level.Some? && Lower(level.value) == "intermediate"
    ensures r == 0.4 <==> level.Some? && (Lower(level.value) == "beginner" || Lower(level.value) == "basic")
  {
    if level.Some? && level.value != "" then LevelTable(Lower(level.value)) else 1.0
  }

  /** The profile skills as candidates, in order. */
  function CandidatesOf(skills: seq<Skill>, norm: string -> string): (cs: seq<Candidate>)
    ensures |cs| == |skills|
    ensures forall k | 0 <= k < |skills| :: cs[k] == Candidate(norm(skills[k].name), Ok(LevelFactor(skills[k].level)))
  {
    if skills == [] then []
    else CandidatesOf(skills[..|skills| - 1], norm) + [Candidate(norm(skills[|skills| - 1].name), Ok(LevelFactor(skills[|skills| - 1].level)))]
  }

  /** Every level of a typed profile can be computed. */
  predicate AllOk(cands: seq<Candidate>)
  {
    forall k | 0 <= k < |cands| :: cands[k].level.Ok?
  }

  /** The `SkillMatch` of one requirement. */
  function MatchReq(req: Requirement, cands: seq<Candidate>, norm: string -> string): (m: SkillMatch<string>)
    requires AllOk(cands)
    ensures m.skill == req.skill && m.jobImportance == req.importance
    ensures BestOf(norm(req.skill), req.importance, cands) == Ok(Best(m.matchScore, m.candidateLevel))
  {
    // BestOf fails only on a matching candidate whose level fails, and AllOk rules that out.
    var b := BestOf(norm(req.skill), req.importance, cands).value;
    SkillMatch(req.skill, req.importance, b.level, b.highest)
  }

  /** One `SkillMatch` per requirement, in requirement order. */
  function MatchesOf(reqs: seq<Requirement>, cands: seq<Candidate>, norm: string -> string): (ms: seq<SkillMatch<string>>)
    requires AllOk(cands)
    ensures |ms| == |reqs|
    ensures forall i | 0 <= i < |reqs| :: ms[i] == MatchReq(reqs[i], cands, norm)
  {
    if reqs == [] then []
    else MatchesOf(reqs[..|reqs| - 1], cands, norm) + [MatchReq(reqs[|reqs| - 1], cands, norm)]
  }

  /** `sum(req.importance for req in job.requirements)`. */
  function ReqTotal(reqs: seq<Requirement>): real
  {
    if reqs == [] then 0.0 else ReqTotal(reqs[..|reqs| - 1]) + reqs[|reqs| - 1].importance
  }

  /** The result of `match_profile_to_job(profile, job)`. */
  function MatchOf(profile: Profile, job: JobListing, norm: string -> string): ProfileJobMatch
  {
    var cands := CandidatesOf(profile.skills, norm);
    var ms := MatchesOf(job.requirements, cands, norm);
    var overall := Overall(TotalScore(ms), ReqTotal(job.requirements));
    ProfileJobMatch(profile.name, job.title, job.company, overall, ms, MissingOf(ms), StrengthsOf(ms), Recommendation(BandOf(overall)))
  }

  /** The candidates of the profile skills, normalising each name. */
  method Candidates(skills: seq<Skill>, norm: string -> string) returns (cands: seq<Candidate>)
    ensures cands == CandidatesOf(skills, norm)
  {
    cands := [];
    for k := 0 to |skills|
      invariant cands == CandidatesOf(skills[..k], norm)
    {
      assert skills[..k + 1][..k] == skills[..k];
      cands := cands + [Candidate(norm(skills[k].name), Ok(LevelFactor(skills[k].level)))];
    }
    assert skills[..|skills|] == skills;
  }

  /** The requirement loop: one `SkillMatch` per requirement, and the running score. */
  method ScoreRequirements(reqs: seq<Requirement>, cands: seq<Candidate>, norm: string -> string)
    returns (skillMatches: seq<SkillMatch<string>>, matchScore: real)
    requires AllOk(cands)
    ensures skillMatches == MatchesOf(reqs, cands, norm)
    ensures matchScore == TotalScore(skillMatches)
  {
    skillMatches := [];
    matchScore := 0.0;
    for i := 0 to |reqs|
      invariant skillMatches == MatchesOf(reqs[..i], cands, norm)
      invariant matchScore == TotalScore(skillMatches)
    {
      var m := MatchOne(reqs[i], cands, norm);
      MatchesPrefixSnoc(reqs, i, cands, norm);
      TotalScoreSnoc(skillMatches, m);
      matchScore := matchScore + m.matchScore;
      skillMatches := skillMatches + [m];
    }
    assert reqs[..|reqs|] == reqs;
  }

  /** One pass of the requirement loop: the best candidate for one requirement. */
  method MatchOne(req: Requirement, cands: seq<Candidate>, norm: string -> string) returns (m: SkillMatch<string>)
    requires AllOk(cands)
    ensures m == MatchReq(req, cands, norm)
  {
    var best := HighestMatch(norm(req.skill), req.importance, cands);
    var b := best.value;
    m := SkillMatch(req.skill, req.importance, b.level, b.highest);
  }

  lemma {:induction false} MatchesPrefixSnoc(reqs: seq<Requirement>, i: int, cands: seq<Candidate>, norm: string -> string)
    requires AllOk(cands) && 0 <= i < |reqs|
    ensures MatchesOf(reqs[..i + 1], cands, norm) == MatchesOf(reqs[..i], cands, norm) + [MatchReq(reqs[i], cands, norm)]
  {
    assert reqs[..i + 1][..i] == reqs[..i];
  }

  /** `match_profile_to_job(profile, job)` for a given skill-name normaliser. */
  method MatchWith(profile: Profile, job: JobListing, norm: string -> string) returns (m: ProfileJobMatch)
    ensures m == MatchOf(profile, job, norm)
  {
    var totalImportance := 0.0;
    for i := 0 to |job.requirements|
      invariant totalImportance == ReqTotal(job.requirements[..i])
    {
      assert job.requirements[..i + 1][..i] == job.requirements[..i];
      totalImportance := totalImportance + job.requirements[i].importance;
    }
    assert job.requirements[..|job.requirements|] == job.requirements;
    var cands := Candidates(profile.skills, norm);
    var skillMatches, matchScore := ScoreRequirements(job.requirements, cands, norm);
    var overall := if totalImportance > 0.0 then matchScore / totalImportance * 100.0 else 0.0;
    m := ProfileJobMatch(profile.name, job.title, job.company, overall, skillMatches,
      MissingOf(skillMatches), StrengthsOf(skillMatches), Recommendation(BandOf(overall)));
  }

  /** `match_profile_to_job(profile, job)`, names normalised by the variant lookup. */
  method MatchProfileToJob(profile: Profile, job: JobListing) returns (m: ProfileJobMatch)
    ensures m == MatchOf(profile, job, DataUtils.Normalize)
  {
    m := MatchWith(profile, job, DataUtils.Normalize);
  }

  /** The requirement total is the total of the matches' importances. */
  lemma {:induction false} ReqTotalIsImportance(reqs: seq<Requirement>, cands: seq<Candidate>, norm: string -> string)
    requires AllOk(cands)
    ensures TotalImportance(MatchesOf(reqs, cands, norm)) == ReqTotal(reqs)
  {
    if reqs != [] {
      var init := reqs[..|reqs| - 1];
      ReqTotalIsImportance(init, cands, norm);
      var ms := MatchesOf(reqs, cands, norm);
      assert ms[..|ms| - 1] == MatchesOf(init, cands, norm);
    }
  }

  lemma CandidatesGood(skills: seq<Skill>, norm: string -> string)
    ensures AllOk(CandidatesOf(skills, norm)) && GoodLevels(CandidatesOf(skills, norm))
  {
  }

  /**
   * Exactly one `SkillMatch` per requirement, in order, each scoring between 0
   * and the requirement's importance when that is not negative.
   */
  lemma {:induction false} OneMatchPerRequirement(profile: Profile, job: JobListing, norm: string -> string)
    ensures var m := MatchOf(profile, job, norm);
      |m.skillMatches| == |job.requirements|
      && forall i | 0 <= i < |job.requirements| ::
           m.skillMatches[i].skill == job.requirements[i].skill
           && m.skillMatches[i].jobImportance == job.requirements[i].importance
           && 0.0 <= m.skillMatches[i].matchScore
           && (0.0 <= job.requirements[i].importance ==> m.skillMatches[i].matchScore <= job.requirements[i].importance)
  {
    var cands := CandidatesOf(profile.skills, norm);
    CandidatesGood(profile.skills, norm);
    var ms := MatchesOf(job.requirements, cands, norm);
    forall i | 0 <= i < |job.requirements|
      ensures 0.0 <= ms[i].matchScore
      ensures 0.0 <= job.requirements[i].importance ==> ms[i].matchScore <= job.requirements[i].importance
    {
      var req := job.requirements[i];
      if 0.0 <= req.importance {
        HighestWithin(norm(req.skill), req.importance, cands);
      }
    }
  }

  /**
   * A requirement with positive importance is missing exactly when no profile
   * skill's normalised name equals, contains or is contained in its own.
   */
  lemma {:induction false} MissingIffNoMatch(profile: Profile, job: JobListing, norm: string -> string, i: nat)
    requires i < |job.requirements| && job.requirements[i].importance > 0.0
    ensures var m := MatchOf(profile, job, norm).skillMatches[i];
      IsMissing(m) <==> forall k | 0 <= k < |profile.skills| :: !Matches(norm(job.requirements[i].skill), norm(profile.skills[k].name))
  {
    var cands := CandidatesOf(profile.skills, norm);
    CandidatesGood(profile.skills, norm);
    var req := job.requirements[i];
    ZeroIffNoMatch(norm(req.skill), req.importance, cands);
  }

  /** With non-negative importances the overall match lies in [0, 100]. */
  lemma {:induction false} OverallPercent(profile: Profile, job: JobListing, norm: string -> string)
    requires forall i | 0 <= i < |job.requirements| :: 0.0 <= job.requirements[i].importance
    ensures 0.0 <= MatchOf(profile, job, norm).overallMatch <= 100.0
  {
    var cands := CandidatesOf(profile.skills, norm);
    CandidatesGood(profile.skills, norm);
    var ms := MatchesOf(job.requirements, cands, norm);
    OneMatchPerRequirement(profile, job, norm);
    ScoreWithinImportance(ms);
    ReqTotalIsImportance(job.requirements, cands, norm);
    OverallWithin(TotalScore(ms), ReqTotal(job.requirements));
  }

  // ---- The batch ----

  /** Non-increasing by overall match. */
  predicate SortedDesc(ms: seq<ProfileJobMatch>)
  {
    forall i, j | 0 <= i < j < |ms| :: ms[i].overallMatch >= ms[j].overallMatch
  }

  /** Places `m` after every entry scoring at least as much, keeping equal scores in their order. */
  function InsertDesc(ms: seq<ProfileJobMatch>, m: ProfileJobMatch): (r: seq<ProfileJobMatch>)
    ensures multiset(r) == multiset(ms) + multiset{m}
    ensures |r| == |ms| + 1
  {
    if ms == [] then [m]
    else
      assert ms == [ms[0]] + ms[1..];
      if ms[0].overallMatch >= m.overallMatch then [ms[0]] + InsertDesc(ms[1..], m)
      else [m] + ms
  }

  /** `sorted(ms, key=overall_match, reverse=True)`, stable. */
  function SortDesc(ms: seq<ProfileJobMatch>): (r: seq<ProfileJobMatch>)
    ensures multiset(r) == multiset(ms)
    ensures |r| == |ms|
  {
    if ms == [] then []
    else
      assert ms == ms[..|ms| - 1] + [ms[|ms| - 1]];
      InsertDesc(SortDesc(ms[..|ms| - 1]), ms[|ms| - 1])
  }

  lemma {:induction false} InsertDescSorted(ms: seq<ProfileJobMatch>, m: ProfileJobMatch)
    requires SortedDesc(ms)
    ensures SortedDesc(InsertDesc(ms, m))
    ensures InsertDesc(ms, m) != [] && (InsertDesc(ms, m)[0] == m || (ms != [] && InsertDesc(ms, m)[0] == ms[0]))
  {
    if ms != [] && ms[0].overallMatch >= m.overallMatch {
      InsertDescSorted(ms[1..], m);
      InsertDescBounded(ms[1..], m, ms[0].overallMatch);
      ConsSorted(ms[0], InsertDesc(ms[1..], m));
    }
  }

  /** Inserting keeps every score at most a bound that all the inputs respect. */
  lemma {:induction false} InsertDescBounded(ms: seq<ProfileJobMatch>, m: ProfileJobMatch, top: real)
    requires forall j | 0 <= j < |ms| :: ms[j].overallMatch <= top
    requires m.overallMatch <= top
    ensures forall j | 0 <= j < |InsertDesc(ms, m)| :: InsertDesc(ms, m)[j].overallMatch <= top
  {
    if ms != [] && ms[0].overallMatch >= m.overallMatch {
      InsertDescBounded(ms[1..], m, top);
    }
  }

  lemma ConsSorted(x: ProfileJobMatch, rest: seq<ProfileJobMatch>)
    requires SortedDesc(rest)
    requires forall j | 0 <= j < |rest| :: rest[j].overallMatch <= x.overallMatch
    ensures SortedDesc([x] + rest)
  {
  }

  /** The sort yields a non-increasing order. */
  lemma {:induction false} SortDescSorted(ms: seq<ProfileJobMatch>)
    ensures SortedDesc(SortDesc(ms))
  {
    if ms != [] {
      SortDescSorted(ms[..|ms| - 1]);
      InsertDescSorted(SortDesc(ms[..|ms| - 1]), ms[|ms| - 1]);
    }
  }

  /** The entries scoring exactly `v`, in order. */
  function WithScore(ms: seq<ProfileJobMatch>, v: real): (r: seq<ProfileJobMatch>)
    ensures |r| <= |ms|
  {
    if ms == [] then []
    else (if ms[0].overallMatch == v then [ms[0]] else []) + WithScore(ms[1..], v)
  }

  lemma {:induction false} WithScoreSnoc(ms: seq<ProfileJobMatch>, m: ProfileJobMatch, v: real)
    ensures WithScore(ms + [m], v) == WithScore(ms, v) + (if m.overallMatch == v then [m] else [])
  {
    if ms != [] {
      assert (ms + [m])[1..] == ms[1..] + [m];
      WithScoreSnoc(ms[1..], m, v);
    } else {
      assert [m][1..] == [];
    }
  }

  lemma {:induction false} WithScoreNone(ms: seq<ProfileJobMatch>, v: real)
    requires forall j | 0 <= j < |ms| :: ms[j].overallMatch < v
    ensures WithScore(ms, v) == []
  {
    if ms != [] {
      WithScoreNone(ms[1..], v);
    }
  }

  /** Inserting into a sorted list puts `m` after every entry with its score. */
  lemma {:induction false} InsertDescStable(ms: seq<ProfileJobMatch>, m: ProfileJobMatch, v: real)
    requires SortedDesc(ms)
    ensures WithScore(InsertDesc(ms, m), v) == WithScore(ms, v) + (if m.overallMatch == v then [m] else [])
    decreases |ms|
  {
    if ms == [] {
      WithScoreCons(m, [], v);
    } else if ms[0].overallMatch >= m.overallMatch {
      assert SortedDesc(ms[1..]);
      InsertDescStable(ms[1..], m, v);
      StablePast(ms, m, v);
    } else {
      StableFront(ms, m, v);
    }
  }

  /** `m` goes past the first entry: the first entry stays in front. */
  lemma StablePast(ms: seq<ProfileJobMatch>, m: ProfileJobMatch, v: real)
    requires ms != [] && ms[0].overallMatch >= m.overallMatch
    requires WithScore(InsertDesc(ms[1..], m), v) == WithScore(ms[1..], v) + (if m.overallMatch == v then [m] else [])
    ensures WithScore(InsertDesc(ms, m), v) == WithScore(ms, v) + (if m.overallMatch == v then [m] else [])
  {
    var rest := InsertDesc(ms[1..], m);
    assert InsertDesc(ms, m) == [ms[0]] + rest;
    WithScoreCons(ms[0], rest, v);
    assert ms == [ms[0]] + ms[1..];
    WithScoreCons(ms[0], ms[1..], v);
  }

  /** `m` scores more than the sorted entries: it goes in front, and no entry shares its score. */
  lemma StableFront(ms: seq<ProfileJobMatch>, m: ProfileJobMatch, v: real)
    requires SortedDesc(ms) && ms != [] && ms[0].overallMatch < m.overallMatch
    ensures WithScore(InsertDesc(ms, m), v) == WithScore(ms, v) + (if m.overallMatch == v then [m] else [])
  {
    assert InsertDesc(ms, m) == [m] + ms;
    WithScoreCons(m, ms, v);
    if m.overallMatch == v {
      WithScoreNone(ms, v);
    }
  }

  lemma WithScoreCons(x: ProfileJobMatch, rest: seq<ProfileJobMatch>, v: real)
    ensures WithScore([x] + rest, v) == (if x.overallMatch == v then [x] else []) + WithScore(rest, v)
  {
    assert ([x] + rest)[1..] == rest;
  }

  /**
   * The sort is stable: the entries with any one score keep their relative order,
   * as with `list.sort`. With the sort's order and multiset, this fixes the result.
   */
  lemma {:induction false} SortDescStable(ms: seq<ProfileJobMatch>, v: real)
    ensures WithScore(SortDesc(ms), v) == WithScore(ms, v)
  {
    if ms != [] {
      var init, last := ms[..|ms| - 1], ms[|ms| - 1];
      assert ms == init + [last];
      SortDescStable(init, v);
      SortDescSorted(init);
      assert SortDesc(ms) == InsertDesc(SortDesc(init), last);
      StableStep(SortDesc(init), init, last, v);
    }
  }

  /** One insertion of the sort keeps each score's entries in input order. */
  lemma StableStep(sorted: seq<ProfileJobMatch>, init: seq<ProfileJobMatch>, last: ProfileJobMatch, v: real)
    requires SortedDesc(sorted) && WithScore(sorted, v) == WithScore(init, v)
    ensures WithScore(InsertDesc(sorted, last), v) == WithScore(init + [last], v)
  {
    InsertDescStable(sorted, last, v);
    WithScoreSnoc(init, last, v);
  }

  /** The matches of one profile against every job, in job order. */
  function MatchesAcross(profile: Profile, jobs: seq<JobListing>, norm: string -> string): (r: seq<ProfileJobMatch>)
    ensures |r| == |jobs|
    ensures forall j | 0 <= j < |jobs| :: r[j] == MatchOf(profile, jobs[j], norm)
  {
    if jobs == [] then []
    else MatchesAcross(profile, jobs[..|jobs| - 1], norm) + [MatchOf(profile, jobs[|jobs| - 1], norm)]
  }

  /** `batch_match_profiles_to_jobs(profiles, jobs)` for a given normaliser. */
  method BatchWith(profiles: seq<Profile>, jobs: seq<JobListing>, norm: string -> string) returns (results: seq<BatchEntry>)
    ensures |results| == |profiles|
    ensures forall i | 0 <= i < |profiles| ::
      results[i] == BatchEntry(profiles[i].name, SortDesc(MatchesAcross(profiles[i], jobs, norm)))
  {
    results := [];
    for i := 0 to |profiles|
      invariant |results| == i
      invariant forall p | 0 <= p < i ::
        results[p] == BatchEntry(profiles[p].name, SortDesc(MatchesAcross(profiles[p], jobs, norm)))
    {
      var profileMatches := MatchAllJobs(profiles[i], jobs, norm);
      results := results + [BatchEntry(profiles[i].name, SortDesc(profileMatches))];
    }
  }

  /** The inner loop of the batch: the profile matched against each job in turn. */
  method MatchAllJobs(profile: Profile, jobs: seq<JobListing>, norm: string -> string) returns (profileMatches: seq<ProfileJobMatch>)
    ensures profileMatches == MatchesAcross(profile, jobs, norm)
  {
    profileMatches := [];
    for j := 0 to |jobs|
      invariant profileMatches == MatchesAcross(profile, jobs[..j], norm)
    {
      var m := MatchWith(profile, jobs[j], norm);
      MatchesAcrossSnoc(profile, jobs, j, norm);
      profileMatches := profileMatches + [m];
    }
    MatchesAcrossAll(profile, jobs, norm);
  }

  lemma {:induction false} MatchesAcrossSnoc(profile: Profile, jobs: seq<JobListing>, j: nat, norm: string -> string)
    requires j < |jobs|
    ensures MatchesAcross(profile, jobs[..j + 1], norm) == MatchesAcross(profile, jobs[..j], norm) + [MatchOf(profile, jobs[j], norm)]
  {
    assert jobs[..j + 1][..j] == jobs[..j];
  }

  lemma {:induction false} MatchesAcrossAll(profile: Profile, jobs: seq<JobListing>, norm: string -> string)
    ensures MatchesAcross(profile, jobs[..|jobs|], norm) == MatchesAcross(profile, jobs, norm)
  {
    assert jobs[..|jobs|] == jobs;
  }

  method BatchMatchProfilesToJobs(profiles: seq<Profile>, jobs: seq<JobListing>) returns (results: seq<BatchEntry>)
    ensures |results| == |profiles|
    ensures forall i | 0 <= i < |profiles| ::
      results[i] == BatchEntry(profiles[i].name, SortDesc(MatchesAcross(profiles[i], jobs, DataUtils.Normalize)))
  {
    results := BatchWith(profiles, jobs, DataUtils.Normalize);
  }

  /**
   * Each batch entry names its profile and holds one match per job, best
   * first: a rearrangement of the matches in job order.
   */
  lemma {:induction false} BatchEntryFacts(profile: Profile, jobs: seq<JobListing>, norm: string -> string)
    ensures var ms := SortDesc(MatchesAcross(profile, jobs, norm));
      |ms| == |jobs| && SortedDesc(ms) && multiset(ms) == multiset(MatchesAcross(profile, jobs, norm))
  {
    SortDescSorted(MatchesAcross(profile, jobs, norm));
  }
}

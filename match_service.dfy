/**
 * The dict-shaped profile-to-job matcher of the backend service: the same
 * containment scoring as the typed matcher, reading plain dicts, where a
 * profile skill is a bare string or a dict, and where a badly shaped input
 * raises the Python exception the source would raise.
 */
module MatchService {
  import opened Wrappers
  import opened Json
  import opened Text
  import opened Bands
  import opened ContainmentMatch

  /** The service's skill-name normaliser, whose code is not part of this model. */
  type JsonNormalizer = Json -> string

  datatype MatchResult = MatchResult(
    profileName: Json,
    jobTitle: Json,
    company: Json,
    overallMatch: real,
    skillMatches: seq<SkillMatch<Json>>,
    missingSkills: seq<Json>,
    strengths: seq<Json>,
    recommendation: string)

  /** A number as `sum` and `*` read it: a bool counts as 1 or 0; anything else raises TypeError. */
  function Number(v: Json): (r: Result<real>)
    ensures r.Err? ==> r.error == TypeError
    ensures v.JNum? ==> r == Ok(v.n)
  {
    match v
    case JNum(n) => Ok(n)
    case JBool(b) => Ok(if b then 1.0 else 0.0)
    case _ => Err(TypeError)
  }

  /** `req["importance"]`: a non-dict raises TypeError, a dict without the key KeyError. */
  function ReqImportance(req: Json): (r: Result<real>)
    ensures r.Ok? ==> req.JObj? && Has(req.fields, "importance")
    ensures !req.JObj? ==> r == Err(TypeError)
    ensures req.JObj? && !Has(req.fields, "importance") ==> r == Err(KeyError)
  {
    if !req.JObj? then Err(TypeError)
    else
      match Get(req.fields, "importance")
      case None => Err(KeyError)
      case Some(v) => Number(v)
  }

  /** The importances of the requirements, or the error the first bad one raises. */
  function ImportancesOf(reqs: seq<Json>): (r: Result<seq<real>>)
    ensures r.Ok? ==> |r.value| == |reqs| && forall i | 0 <= i < |reqs| :: reqs[i].JObj?
  {
    if reqs == [] then Ok([])
    else
      match ImportancesOf(reqs[..|reqs| - 1])
      case Err(e) => Err(e)
      case Ok(imps) =>
        match ReqImportance(reqs[|reqs| - 1])
        case Err(e) => Err(e)
        case Ok(x) => Ok(imps + [x])
  }

  /** The importance pass succeeds exactly when every requirement has a numeric importance, and then lists them in order. */
  lemma {:induction false} ImportancesSpec(reqs: seq<Json>)
    ensures ImportancesOf(reqs).Ok? <==> forall i | 0 <= i < |reqs| :: ReqImportance(reqs[i]).Ok?
    ensures ImportancesOf(reqs).Ok? ==> forall i | 0 <= i < |reqs| :: ImportancesOf(reqs).value[i] == ReqImportance(reqs[i]).value
  {
    if reqs != [] {
      var n := |reqs| - 1;
      ImportancesSpec(reqs[..n]);
      forall i | 0 <= i < n ensures reqs[..n][i] == reqs[i] { }
    }
  }

  function Sum(xs: seq<real>): real
  {
    if xs == [] then 0.0 else Sum(xs[..|xs| - 1]) + xs[|xs| - 1]
  }

  /** `job["requirements"]`, as iterated. */
  function Requirements(job: Fields): (r: Result<seq<Json>>)
    ensures !Has(job, "requirements") ==> r == Err(KeyError)
  {
    match Get(job, "requirements")
    case None => Err(KeyError)
    case Some(v) => Iterate(v)
  }

  /** The name of a profile skill: a dict's "name" (the dict itself when it has none), or the value itself. */
  function SkillName(skill: Json): (r: Json)
    ensures skill.JObj? && Has(skill.fields, "name") ==> Some(r) == Get(skill.fields, "name")
    ensures !skill.JObj? ==> r == skill
  {
    if skill.JObj? then GetOr(skill.fields, "name", skill) else skill
  }

  /**
   * The level factor of a matching profile skill: only a dict with a "level"
   * entry has one other than 1.0, and that entry must be a string.
   */
  function LevelOf(skill: Json): (r: Result<real>)
    ensures !(skill.JObj? && Has(skill.fields, "level")) ==> r == Ok(1.0)
    ensures r.Err? <==> skill.JObj? && Has(skill.fields, "level") && !Get(skill.fields, "level").value.JStr?
    ensures r.Err? ==> r.error == AttributeError
    ensures r.Ok? ==> r.value == 1.0 || r.value == 0.7 || r.value == 0.4
  {
    if skill.JObj? && Has(skill.fields, "level") then
      match Get(skill.fields, "level").value
      case JStr(l) => Ok(LevelTable(Lower(l)))
      case _ => Err(AttributeError)
    else Ok(1.0)
  }

  function CandidateOf(skill: Json, norm: JsonNormalizer): Candidate
  {
    Candidate(norm(SkillName(skill)), LevelOf(skill))
  }

  function CandidatesOf(skills: seq<Json>, norm: JsonNormalizer): (cs: seq<Candidate>)
    ensures |cs| == |skills|
    ensures forall k | 0 <= k < |skills| :: cs[k] == CandidateOf(skills[k], norm)
  {
    if skills == [] then [] else CandidatesOf(skills[..|skills| - 1], norm) + [CandidateOf(skills[|skills| - 1], norm)]
  }

  /** `profile["skills"]`, as candidates. */
  function ProfileCandidates(profile: Fields, norm: JsonNormalizer): (r: Result<seq<Candidate>>)
    ensures !Has(profile, "skills") ==> r == Err(KeyError)
    ensures r.Ok? ==> GoodLevels(r.value)
  {
    match Get(profile, "skills")
    case None => Err(KeyError)
    case Some(v) =>
      match Iterate(v)
      case Err(e) => Err(e)
      case Ok(items) => Ok(CandidatesOf(items, norm))
  }

  /**
   * One pass of the requirement loop: `req["skill"]`, then the profile's
   * skills, then the best match.
   */
  function MatchReq(req: Json, importance: real, cands: Result<seq<Candidate>>, norm: JsonNormalizer): (r: Result<SkillMatch<Json>>)
  {
    if !req.JObj? then Err(TypeError)
    else
      match Get(req.fields, "skill")
      case None => Err(KeyError)
      case Some(skill) =>
        if cands.Err? then Err(cands.error)
        else
          match BestOf(norm(skill), importance, cands.value)
          case Err(e) => Err(e)
          case Ok(b) => Ok(SkillMatch(skill, importance, b.level, b.highest))
  }

  /**
   * A pass fails with TypeError on a non-dict requirement and with KeyError
   * on one without "skill"; a pass that succeeds names the requirement's
   * skill and importance and holds the best containment match over the
   * profile's skills.
   */
  lemma MatchReqSpec(req: Json, importance: real, cands: Result<seq<Candidate>>, norm: JsonNormalizer)
    ensures !req.JObj? ==> MatchReq(req, importance, cands, norm) == Err(TypeError)
    ensures req.JObj? && !Has(req.fields, "skill") ==> MatchReq(req, importance, cands, norm) == Err(KeyError)
    ensures MatchReq(req, importance, cands, norm).Ok? ==>
      var m := MatchReq(req, importance, cands, norm).value;
      && req.JObj? && Some(m.skill) == Get(req.fields, "skill") && m.jobImportance == importance
      && cands.Ok? && BestOf(norm(m.skill), importance, cands.value) == Ok(Best(m.matchScore, m.candidateLevel))
  {
  }

  /** The requirement loop, stopping at the first error. */
  function MatchesOf(reqs: seq<Json>, imps: seq<real>, cands: Result<seq<Candidate>>, norm: JsonNormalizer): (r: Result<seq<SkillMatch<Json>>>)
    requires |imps| == |reqs|
    ensures r.Ok? ==> |r.value| == |reqs|
  {
    if reqs == [] then Ok([])
    else
      var n := |reqs| - 1;
      match MatchesOf(reqs[..n], imps[..n], cands, norm)
      case Err(e) => Err(e)
      case Ok(ms) =>
        match MatchReq(reqs[n], imps[n], cands, norm)
        case Err(e) => Err(e)
        case Ok(m) => Ok(ms + [m])
  }

  /** A successful requirement loop holds, at each position, what one pass makes of that requirement. */
  lemma {:induction false} MatchesSpec(reqs: seq<Json>, imps: seq<real>, cands: Result<seq<Candidate>>, norm: JsonNormalizer)
    requires |imps| == |reqs|
    ensures MatchesOf(reqs, imps, cands, norm).Ok? ==>
      forall i | 0 <= i < |reqs| :: Ok(MatchesOf(reqs, imps, cands, norm).value[i]) == MatchReq(reqs[i], imps[i], cands, norm)
  {
    if reqs != [] {
      var n := |reqs| - 1;
      MatchesSpec(reqs[..n], imps[..n], cands, norm);
      forall i | 0 <= i < n ensures reqs[..n][i] == reqs[i] && imps[..n][i] == imps[i] { }
    }
  }

  /** The fields that close the result: `profile["name"]`, `job["title"]`, `job["company"]`, in that order. */
  function Echo(profile: Fields, job: Fields): (r: Result<(Json, Json, Json)>)
    ensures r.Ok? <==> Has(profile, "name") && Has(job, "title") && Has(job, "company")
    ensures r.Err? ==> r.error == KeyError
  {
    if !Has(profile, "name") || !Has(job, "title") || !Has(job, "company") then Err(KeyError)
    else Ok((Get(profile, "name").value, Get(job, "title").value, Get(job, "company").value))
  }

  /** The result of `match_profile_to_job(profile, job)`, or the exception it raises. */
  function MatchOf(profile: Fields, job: Fields, norm: JsonNormalizer): Result<MatchResult>
  {
    match Requirements(job)
    case Err(e) => Err(e)
    case Ok(reqs) =>
      match ImportancesOf(reqs)
      case Err(e) => Err(e)
      case Ok(imps) =>
        match MatchesOf(reqs, imps, ProfileCandidates(profile, norm), norm)
        case Err(e) => Err(e)
        case Ok(ms) =>
          var overall := Overall(TotalScore(ms), Sum(imps));
          match Echo(profile, job)
          case Err(e) => Err(e)
          case Ok(names) =>
            Ok(MatchResult(names.0, names.1, names.2, overall, ms, MissingOf(ms), StrengthsOf(ms), Recommendation(BandOf(overall))))
  }

  /** The importances with their sum, or the error. */
  function WithSum(r: Result<seq<real>>): Result<(seq<real>, real)>
  {
    match r
    case Err(e) => Err(e)
    case Ok(imps) => Ok((imps, Sum(imps)))
  }

  /** The matches with their score total, or the error. */
  function WithTotal(r: Result<seq<SkillMatch<Json>>>): Result<(seq<SkillMatch<Json>>, real)>
  {
    match r
    case Err(e) => Err(e)
    case Ok(ms) => Ok((ms, TotalScore(ms)))
  }

  /** The `sum(req["importance"] ...)` pass. */
  method SumImportances(reqs: seq<Json>) returns (r: Result<(seq<real>, real)>)
    ensures r == WithSum(ImportancesOf(reqs))
  {
    var imps := [];
    var total := 0.0;
    for i := 0 to |reqs|
      invariant ImportancesOf(reqs[..i]) == Ok(imps)
      invariant total == Sum(imps)
    {
      var x := ReqImportance(reqs[i]);
      if x.Err? {
        ImportancesStop(reqs, i, imps);
        return Err(x.error);
      }
      ImportancesNext(reqs, i, imps);
      imps := imps + [x.value];
      total := total + x.value;
    }
    assert reqs[..|reqs|] == reqs;
    return Ok((imps, total));
  }

  /** One more requirement read by the importance pass. */
  lemma {:induction false} ImportancesSnoc(reqs: seq<Json>, i: nat, imps: seq<real>)
    requires i < |reqs| && ImportancesOf(reqs[..i]) == Ok(imps)
    ensures ImportancesOf(reqs[..i + 1]) ==
      match ReqImportance(reqs[i])
      case Err(e) => Err(e)
      case Ok(x) => Ok(imps + [x])
  {
    assert reqs[..i + 1][..i] == reqs[..i];
  }

  /** The importance pass stops at the first requirement without a numeric importance. */
  lemma {:induction false} ImportancesStop(reqs: seq<Json>, i: nat, imps: seq<real>)
    requires i < |reqs| && ImportancesOf(reqs[..i]) == Ok(imps) && ReqImportance(reqs[i]).Err?
    ensures ImportancesOf(reqs) == Err(ReqImportance(reqs[i]).error)
  {
    ImportancesSnoc(reqs, i, imps);
    ImportancesErr(reqs, i + 1);
  }

  /** The importance pass takes in one more requirement, and the sum one more term. */
  lemma {:induction false} ImportancesNext(reqs: seq<Json>, i: nat, imps: seq<real>)
    requires i < |reqs| && ImportancesOf(reqs[..i]) == Ok(imps) && ReqImportance(reqs[i]).Ok?
    ensures ImportancesOf(reqs[..i + 1]) == Ok(imps + [ReqImportance(reqs[i]).value])
    ensures Sum(imps + [ReqImportance(reqs[i]).value]) == Sum(imps) + ReqImportance(reqs[i]).value
  {
    ImportancesSnoc(reqs, i, imps);
    SumSnoc(imps, ReqImportance(reqs[i]).value);
  }

  lemma {:induction false} SumSnoc(xs: seq<real>, x: real)
    ensures Sum(xs + [x]) == Sum(xs) + x
  {
    assert (xs + [x])[..|xs|] == xs;
  }

  /** One more requirement scored by the requirement loop. */
  lemma {:induction false} MatchesSnoc(reqs: seq<Json>, imps: seq<real>, cands: Result<seq<Candidate>>, norm: JsonNormalizer, i: nat, ms: seq<SkillMatch<Json>>)
    requires |imps| == |reqs|
    requires i < |reqs| && MatchesOf(reqs[..i], imps[..i], cands, norm) == Ok(ms)
    ensures MatchesOf(reqs[..i + 1], imps[..i + 1], cands, norm) ==
      match MatchReq(reqs[i], imps[i], cands, norm)
      case Err(e) => Err(e)
      case Ok(m) => Ok(ms + [m])
  {
    var rs, ps := reqs[..i + 1], imps[..i + 1];
    assert rs[..i] == reqs[..i] && rs[i] == reqs[i];
    assert ps[..i] == imps[..i] && ps[i] == imps[i];
    MatchesUnfold(rs, ps, cands, norm);
  }

  /** One step of the requirement loop, as the definition takes it. */
  lemma MatchesUnfold(reqs: seq<Json>, imps: seq<real>, cands: Result<seq<Candidate>>, norm: JsonNormalizer)
    requires |imps| == |reqs| && reqs != []
    ensures var n := |reqs| - 1;
      MatchesOf(reqs, imps, cands, norm) ==
        match MatchesOf(reqs[..n], imps[..n], cands, norm)
        case Err(e) => Err(e)
        case Ok(ms) =>
          match MatchReq(reqs[n], imps[n], cands, norm)
          case Err(e) => Err(e)
          case Ok(m) => Ok(ms + [m])
  {
  }

  /** The requirement loop stops at the first requirement whose pass fails. */
  lemma {:induction false} MatchesStop(reqs: seq<Json>, imps: seq<real>, cands: Result<seq<Candidate>>, norm: JsonNormalizer, i: nat, ms: seq<SkillMatch<Json>>)
    requires |imps| == |reqs|
    requires i < |reqs| && MatchesOf(reqs[..i], imps[..i], cands, norm) == Ok(ms)
    requires MatchReq(reqs[i], imps[i], cands, norm).Err?
    ensures MatchesOf(reqs, imps, cands, norm) == Err(MatchReq(reqs[i], imps[i], cands, norm).error)
  {
    MatchesSnoc(reqs, imps, cands, norm, i, ms);
    MatchesErr(reqs, imps, cands, norm, i + 1);
  }

  /** The requirement loop takes in one more match, and the score total one more term. */
  lemma {:induction false} MatchesNext(reqs: seq<Json>, imps: seq<real>, cands: Result<seq<Candidate>>, norm: JsonNormalizer, i: nat, ms: seq<SkillMatch<Json>>)
    requires |imps| == |reqs|
    requires i < |reqs| && MatchesOf(reqs[..i], imps[..i], cands, norm) == Ok(ms)
    requires MatchReq(reqs[i], imps[i], cands, norm).Ok?
    ensures MatchesOf(reqs[..i + 1], imps[..i + 1], cands, norm) == Ok(ms + [MatchReq(reqs[i], imps[i], cands, norm).value])
    ensures TotalScore(ms + [MatchReq(reqs[i], imps[i], cands, norm).value])
      == TotalScore(ms) + MatchReq(reqs[i], imps[i], cands, norm).value.matchScore
  {
    MatchesSnoc(reqs, imps, cands, norm, i, ms);
    TotalScoreSnoc(ms, MatchReq(reqs[i], imps[i], cands, norm).value);
  }

  lemma {:induction false} ImportancesErr(reqs: seq<Json>, n: nat)
    requires n <= |reqs|
    requires ImportancesOf(reqs[..n]).Err?
    ensures ImportancesOf(reqs) == ImportancesOf(reqs[..n])
    decreases |reqs| - n
  {
    if n < |reqs| {
      assert reqs[..n + 1][..n] == reqs[..n];
      ImportancesErr(reqs, n + 1);
    } else {
      assert reqs[..n] == reqs;
    }
  }

  lemma {:induction false} MatchesErr(reqs: seq<Json>, imps: seq<real>, cands: Result<seq<Candidate>>, norm: JsonNormalizer, n: nat)
    requires |imps| == |reqs|
    requires n <= |reqs|
    requires MatchesOf(reqs[..n], imps[..n], cands, norm).Err?
    ensures MatchesOf(reqs, imps, cands, norm) == MatchesOf(reqs[..n], imps[..n], cands, norm)
    decreases |reqs| - n
  {
    if n < |reqs| {
      assert reqs[..n + 1][..n] == reqs[..n];
      assert imps[..n + 1][..n] == imps[..n];
      MatchesErr(reqs, imps, cands, norm, n + 1);
    } else {
      assert reqs[..n] == reqs;
      assert imps[..n] == imps;
    }
  }

  /** The profile's skills as candidates, normalising each name. */
  method ProfileSkills(profile: Fields, norm: JsonNormalizer) returns (r: Result<seq<Candidate>>)
    ensures r == ProfileCandidates(profile, norm)
  {
    var g := Get(profile, "skills");
    if g.None? {
      return Err(KeyError);
    }
    var items := Iterate(g.value);
    if items.Err? {
      return Err(items.error);
    }
    var cands := [];
    for k := 0 to |items.value|
      invariant cands == CandidatesOf(items.value[..k], norm)
    {
      assert items.value[..k + 1][..k] == items.value[..k];
      cands := cands + [CandidateOf(items.value[k], norm)];
    }
    assert items.value[..|items.value|] == items.value;
    return Ok(cands);
  }

  /** The requirement loop of `match_profile_to_job`. */
  method ScoreRequirements(reqs: seq<Json>, imps: seq<real>, cands: Result<seq<Candidate>>, norm: JsonNormalizer)
    returns (r: Result<(seq<SkillMatch<Json>>, real)>)
    requires |imps| == |reqs|
    ensures r == WithTotal(MatchesOf(reqs, imps, cands, norm))
  {
    var skillMatches := [];
    var matchScore := 0.0;
    for i := 0 to |reqs|
      invariant MatchesOf(reqs[..i], imps[..i], cands, norm) == Ok(skillMatches)
      invariant matchScore == TotalScore(skillMatches)
    {
      var req := reqs[i];
      if !req.JObj? {
        MatchesStop(reqs, imps, cands, norm, i, skillMatches);
        return Err(TypeError);
      }
      var skill := Get(req.fields, "skill");
      if skill.None? {
        MatchesStop(reqs, imps, cands, norm, i, skillMatches);
        return Err(KeyError);
      }
      if cands.Err? {
        MatchesStop(reqs, imps, cands, norm, i, skillMatches);
        return Err(cands.error);
      }
      var best := HighestMatch(norm(skill.value), imps[i], cands.value);
      if best.Err? {
        MatchesStop(reqs, imps, cands, norm, i, skillMatches);
        return Err(best.error);
      }
      var m := SkillMatch(skill.value, imps[i], best.value.level, best.value.highest);
      MatchesNext(reqs, imps, cands, norm, i, skillMatches);
      matchScore := matchScore + best.value.highest;
      skillMatches := skillMatches + [m];
    }
    assert reqs[..|reqs|] == reqs;
    assert imps[..|imps|] == imps;
    return Ok((skillMatches, matchScore));
  }

  /** `match_profile_to_job(profile, job)`; the normaliser is a parameter. */
  method MatchProfileToJob(profile: Fields, job: Fields, norm: JsonNormalizer) returns (r: Result<MatchResult>)
    ensures r == MatchOf(profile, job, norm)
  {
    var reqs := Requirements(job);
    if reqs.Err? {
      return Err(reqs.error);
    }
    var total := SumImportances(reqs.value);
    if total.Err? {
      return Err(total.error);
    }
    var imps := total.value.0;
    var cands := ProfileSkills(profile, norm);
    var scored := ScoreRequirements(reqs.value, imps, cands, norm);
    if scored.Err? {
      return Err(scored.error);
    }
    var skillMatches := scored.value.0;
    var totalImportance := total.value.1;
    var overall := Overall(scored.value.1, totalImportance);
    var names := Echo(profile, job);
    if names.Err? {
      return Err(names.error);
    }
    r := Ok(MatchResult(names.value.0, names.value.1, names.value.2, overall, skillMatches,
      MissingOf(skillMatches), StrengthsOf(skillMatches), Recommendation(BandOf(overall))));
  }

  /** Without requirements the profile's skills are never read: only the echoed names can fail. */
  lemma NoRequirements(profile: Fields, job: Fields, norm: JsonNormalizer)
    requires Get(job, "requirements") == Some(JArr([]))
    ensures MatchOf(profile, job, norm).Ok? <==> Has(profile, "name") && Has(job, "title") && Has(job, "company")
    ensures MatchOf(profile, job, norm).Ok? ==>
      var m := MatchOf(profile, job, norm).value;
      m.overallMatch == 0.0 && m.skillMatches == [] && m.missingSkills == [] && m.strengths == []
  {
  }

  /**
   * A successful match holds one entry per requirement, in order, naming the
   * requirement's "skill" and importance, and scoring the best containment
   * match over the profile's skills.
   */
  lemma {:induction false} OneMatchPerRequirement(profile: Fields, job: Fields, norm: JsonNormalizer)
    requires MatchOf(profile, job, norm).Ok?
    ensures var reqs := Requirements(job).value;
      var ms := MatchOf(profile, job, norm).value.skillMatches;
      |ms| == |reqs| &&
      forall i | 0 <= i < |reqs| ::
        && reqs[i].JObj?
        && Some(ms[i].skill) == Get(reqs[i].fields, "skill")
        && ReqImportance(reqs[i]) == Ok(ms[i].jobImportance)
        && BestOf(norm(ms[i].skill), ms[i].jobImportance, ProfileCandidates(profile, norm).value)
             == Ok(Best(ms[i].matchScore, ms[i].candidateLevel))
  {
    var reqs := Requirements(job).value;
    var imps := ImportancesOf(reqs).value;
    var cands := ProfileCandidates(profile, norm);
    assert MatchesOf(reqs, imps, cands, norm).Ok?;
    assert MatchOf(profile, job, norm).value.skillMatches == MatchesOf(reqs, imps, cands, norm).value;
    MatchesEach(reqs, imps, cands, norm);
  }

  /** The requirement loop's entries, one per requirement, as `OneMatchPerRequirement` states them. */
  lemma {:induction false} MatchesEach(reqs: seq<Json>, imps: seq<real>, cands: Result<seq<Candidate>>, norm: JsonNormalizer)
    requires ImportancesOf(reqs) == Ok(imps) && MatchesOf(reqs, imps, cands, norm).Ok?
    ensures var ms := MatchesOf(reqs, imps, cands, norm).value;
      |ms| == |reqs| &&
      forall i | 0 <= i < |reqs| ::
        && reqs[i].JObj?
        && Some(ms[i].skill) == Get(reqs[i].fields, "skill")
        && ReqImportance(reqs[i]) == Ok(ms[i].jobImportance)
        && BestOf(norm(ms[i].skill), ms[i].jobImportance, cands.value) == Ok(Best(ms[i].matchScore, ms[i].candidateLevel))
  {
    var ms := MatchesOf(reqs, imps, cands, norm).value;
    ImportancesSpec(reqs);
    MatchesSpec(reqs, imps, cands, norm);
    forall i | 0 <= i < |reqs|
      ensures ReqImportance(reqs[i]) == Ok(ms[i].jobImportance)
      ensures Some(ms[i].skill) == Get(reqs[i].fields, "skill")
      ensures BestOf(norm(ms[i].skill), ms[i].jobImportance, cands.value) == Ok(Best(ms[i].matchScore, ms[i].candidateLevel))
    {
      assert MatchReq(reqs[i], imps[i], cands, norm) == Ok(ms[i]);
      MatchReqSpec(reqs[i], imps[i], cands, norm);
    }
  }

  /** With non-negative importances the overall match lies in [0, 100]. */
  lemma {:induction false} OverallPercent(profile: Fields, job: Fields, norm: JsonNormalizer)
    requires MatchOf(profile, job, norm).Ok?
    requires forall i | 0 <= i < |Requirements(job).value| ::
      ReqImportance(Requirements(job).value[i]).Ok? ==> ReqImportance(Requirements(job).value[i]).value >= 0.0
    ensures 0.0 <= MatchOf(profile, job, norm).value.overallMatch <= 100.0
  {
    var reqs := Requirements(job).value;
    var imps := ImportancesOf(reqs).value;
    var cands := ProfileCandidates(profile, norm);
    var ms := MatchesOf(reqs, imps, cands, norm).value;
    ImportancesSpec(reqs);
    MatchesSpec(reqs, imps, cands, norm);
    forall i | 0 <= i < |ms|
      ensures 0.0 <= ms[i].matchScore <= ms[i].jobImportance
    {
      assert MatchReq(reqs[i], imps[i], cands, norm) == Ok(ms[i]);
      MatchReqSpec(reqs[i], imps[i], cands, norm);
      HighestWithin(norm(ms[i].skill), imps[i], cands.value);
    }
    ScoreWithinImportance(ms);
    MatchImportances(reqs, imps, cands, norm);
    OverallWithin(TotalScore(ms), Sum(imps));
  }

  lemma {:induction false} MatchImportances(reqs: seq<Json>, imps: seq<real>, cands: Result<seq<Candidate>>, norm: JsonNormalizer)
    requires |imps| == |reqs|
    requires MatchesOf(reqs, imps, cands, norm).Ok?
    ensures TotalImportance(MatchesOf(reqs, imps, cands, norm).value) == Sum(imps)
  {
    if reqs != [] {
      var n := |reqs| - 1;
      MatchImportances(reqs[..n], imps[..n], cands, norm);
      var ms := MatchesOf(reqs, imps, cands, norm).value;
      assert ms[..n] == MatchesOf(reqs[..n], imps[..n], cands, norm).value;
    }
  }

  /**
   * For a requirement with a "skill" and a profile whose "skills" is a list,
   * a pass raises exactly when some profile skill whose name matches the
   * requirement has a "level" that is not a string, and then it raises
   * AttributeError: the levels of skills that do not match are never read.
   */
  lemma {:induction false} BadLevelOnlyWhenMatched(req: Json, importance: real, profile: Fields, items: seq<Json>, norm: JsonNormalizer)
    requires req.JObj? && Has(req.fields, "skill")
    requires Get(profile, "skills") == Some(JArr(items))
    ensures var key := norm(Get(req.fields, "skill").value);
      MatchReq(req, importance, ProfileCandidates(profile, norm), norm).Err? <==>
        exists k | 0 <= k < |items| :: Matches(key, norm(SkillName(items[k]))) && LevelOf(items[k]).Err?
    ensures MatchReq(req, importance, ProfileCandidates(profile, norm), norm).Err? ==>
      MatchReq(req, importance, ProfileCandidates(profile, norm), norm).error == AttributeError
  {
    var key := norm(Get(req.fields, "skill").value);
    var cands := CandidatesOf(items, norm);
    assert ProfileCandidates(profile, norm) == Ok(cands);
    var b := BestOf(key, importance, cands);
    if b.Err? {
      var k :| 0 <= k < |cands| && Matches(key, cands[k].key) && cands[k].level == Err(b.error);
      assert cands[k] == CandidateOf(items[k], norm);
    }
    if exists k | 0 <= k < |items| :: Matches(key, norm(SkillName(items[k]))) && LevelOf(items[k]).Err? {
      var k :| 0 <= k < |items| && Matches(key, norm(SkillName(items[k]))) && LevelOf(items[k]).Err?;
      assert cands[k] == CandidateOf(items[k], norm);
    }
  }
}

/**
 * The token-overlap scorer: every named job skill is matched exactly (after
 * normalisation) or partially (by shared tokens) against the profile's
 * skills, and the weighted matches give the overall percentage.
 */
module MatchUtils {
  import opened Wrappers
  import opened Json
  import opened Text
  import opened PyRound
  import opened Bands
  import JobsUtils

  /** A skill dict as the scorer reads it: its "name" and "importance" entries, `None` when absent. */
  datatype SkillRec = SkillRec(name: Option<string>, importance: Option<real>)

  /** One entry of `skill_matches`. */
  datatype SkillMatch = SkillMatch(skillName: string, importance: real, matchScore: real, weightedScore: real)

  datatype MatchReport = MatchReport(
    overallMatch: int,
    skillMatches: seq<SkillMatch>,
    missingSkills: seq<string>,
    strengths: seq<string>)

  /** `"name" in skill and skill.get("name", "")`. */
  predicate Named(s: SkillRec)
  {
    s.name.Some? && s.name.value != ""
  }

  /** `skill.get("importance", 0.5)`. */
  function ImportanceOf(s: SkillRec): real
  {
    if s.importance.Some? then s.importance.value else 0.5
  }

  /** The named skills, in order. */
  function NamedOnly(skills: seq<SkillRec>): (r: seq<SkillRec>)
    ensures forall i | 0 <= i < |r| :: Named(r[i])
    ensures forall i | 0 <= i < |r| :: r[i] in skills
    ensures |r| <= |skills|
  {
    if skills == [] then []
    else
      var rest := NamedOnly(skills[..|skills| - 1]);
      var s := skills[|skills| - 1];
      if Named(s) then rest + [s] else rest
  }

  /** The keys of the dict of normalised profile-skill names: each once, in order of first appearance. */
  function ProfileKeys(profile: seq<SkillRec>, norm: Normalizer): (keys: seq<string>)
    ensures forall i, j | 0 <= i < j < |keys| :: keys[i] != keys[j]
  {
    if profile == [] then []
    else
      var rest := ProfileKeys(profile[..|profile| - 1], norm);
      var s := profile[|profile| - 1];
      if !Named(s) then rest
      else
        var k := norm(s.name.value);
        if k in rest then rest else rest + [k]
  }

  /** The distinct whitespace-separated tokens of a name. */
  function Tokens(s: string): set<string>
  {
    Elems(SplitWs(s))
  }

  function Max(a: nat, b: nat): nat
  {
    if a < b then b else a
  }

  /**
   * The share of tokens two non-empty names have in common, over the larger
   * token count; 0 when either name is empty or has no token.
   */
  function TokenSimilarity(j: string, p: string): (r: real)
    ensures 0.0 <= r <= 1.0
  {
    var jt, pt := Tokens(j), Tokens(p);
    if j == "" || p == "" || jt == {} || pt == {} then 0.0
    else
      OverlapFacts(jt, pt);
      Ratio(|jt * pt|, Max(|jt|, |pt|))
  }

  /** `a / b` for counts with `a <= b` and `b > 0`: a value in [0, 1]. */
  function Ratio(a: nat, b: nat): (r: real)
    requires 0 < b && a <= b
    ensures 0.0 <= r <= 1.0
  {
    var x, y := a as real, b as real;
    assert x / y <= 1.0 by {
      assert x / y * y == x;
    }
    x / y
  }

  /** Shared tokens are at most the larger count, and equal it only when both sets are the same. */
  lemma {:induction false} OverlapFacts(jt: set<string>, pt: set<string>)
    ensures |jt * pt| <= Max(|jt|, |pt|)
  {
    SubsetCard(jt * pt, jt);
  }

  /** The best similarity among the first `n` keys, as the loop finds it: a later key wins only if strictly better. */
  function BestUpTo(j: string, keys: seq<string>, n: nat): (r: real)
    requires n <= |keys|
    ensures 0.0 <= r <= 1.0
  {
    BestBy(k => TokenSimilarity(j, k), keys, n)
  }

  /** The best score among the first `n` keys, starting from 0 and taking a later key only if strictly better. */
  function BestBy(score: string -> real, keys: seq<string>, n: nat): (r: real)
    requires n <= |keys|
    requires forall k :: 0.0 <= score(k) <= 1.0
    ensures 0.0 <= r <= 1.0
  {
    if n == 0 then 0.0
    else
      var b := BestBy(score, keys, n - 1);
      if score(keys[n - 1]) > b then score(keys[n - 1]) else b
  }

  /** The best score is the largest one among the first `n` keys, and it is some key's own score unless it is 0. */
  lemma {:induction false} BestByIsMax(score: string -> real, keys: seq<string>, n: nat)
    requires n <= |keys|
    requires forall k :: 0.0 <= score(k) <= 1.0
    ensures forall i | 0 <= i < n :: score(keys[i]) <= BestBy(score, keys, n)
    ensures BestBy(score, keys, n) == 0.0 || exists i | 0 <= i < n :: score(keys[i]) == BestBy(score, keys, n)
  {
    if n > 0 {
      BestByIsMax(score, keys, n - 1);
    }
  }

  /** The best similarity is the largest among the first `n` keys, and some key's own similarity unless it is 0. */
  lemma {:induction false} BestUpToIsMax(j: string, keys: seq<string>, n: nat)
    requires n <= |keys|
    ensures forall i | 0 <= i < n :: TokenSimilarity(j, keys[i]) <= BestUpTo(j, keys, n)
    ensures BestUpTo(j, keys, n) == 0.0 || exists i | 0 <= i < n :: TokenSimilarity(j, keys[i]) == BestUpTo(j, keys, n)
  {
    var score := k => TokenSimilarity(j, k);
    BestByIsMax(score, keys, n);
    assert forall i | 0 <= i < n :: score(keys[i]) == TokenSimilarity(j, keys[i]);
  }

  /**
   * How a job skill with normalised name `j` fares: an exact key scores 1.0;
   * otherwise the best partial score counts if it is positive and reaches the threshold.
   */
  function Outcome(j: string, keys: seq<string>, threshold: real): (r: Option<real>)
    ensures j in keys ==> r == Some(1.0)
    ensures r.Some? ==> r.value == 1.0 || (threshold <= r.value && 0.0 < r.value <= 1.0)
  {
    if j in keys then Some(1.0)
    else
      var b := BestUpTo(j, keys, |keys|);
      if b > 0.0 && b >= threshold then Some(b) else None
  }

  /** A normaliser of skill names. */
  type Normalizer = string -> string

  function OutcomeOf(s: SkillRec, keys: seq<string>, threshold: real, norm: Normalizer): Option<real>
    requires Named(s)
  {
    Outcome(norm(s.name.value), keys, threshold)
  }

  /** `importance * match_score`. */
  function Weighted(importance: real, score: real): real
  {
    importance * score
  }

  /** A match entry as the scorer makes them: weighted by importance, scored 1.0 or at least the threshold. */
  predicate GoodMatch(m: SkillMatch, threshold: real)
  {
    && m.weightedScore == Weighted(m.importance, m.matchScore)
    && (m.matchScore == 1.0 || (threshold <= m.matchScore && 0.0 < m.matchScore <= 1.0))
  }

  /** The `skill_matches` entries of the named job skills, in job order. */
  function MatchesOf(named: seq<SkillRec>, keys: seq<string>, threshold: real, norm: Normalizer): (ms: seq<SkillMatch>)
    requires forall i | 0 <= i < |named| :: Named(named[i])
    ensures |ms| <= |named|
    ensures forall i | 0 <= i < |ms| :: GoodMatch(ms[i], threshold)
  {
    if named == [] then []
    else
      var rest := MatchesOf(named[..|named| - 1], keys, threshold, norm);
      var s := named[|named| - 1];
      var o := OutcomeOf(s, keys, threshold, norm);
      if o.Some? then
        var m := SkillMatch(s.name.value, ImportanceOf(s), o.value, Weighted(ImportanceOf(s), o.value));
        assert GoodMatch(m, threshold);
        rest + [m]
      else rest
  }

  /** The `missing_skills` of the named job skills, in job order. */
  function MissingOf(named: seq<SkillRec>, keys: seq<string>, threshold: real, norm: Normalizer): seq<string>
    requires forall i | 0 <= i < |named| :: Named(named[i])
  {
    if named == [] then []
    else
      var rest := MissingOf(named[..|named| - 1], keys, threshold, norm);
      var s := named[|named| - 1];
      if OutcomeOf(s, keys, threshold, norm).None? then rest + [s.name.value] else rest
  }

  function TotalImportance(named: seq<SkillRec>): real
  {
    if named == [] then 0.0 else TotalImportance(named[..|named| - 1]) + ImportanceOf(named[|named| - 1])
  }

  function TotalWeighted(ms: seq<SkillMatch>): real
  {
    if ms == [] then 0.0 else TotalWeighted(ms[..|ms| - 1]) + ms[|ms| - 1].weightedScore
  }

  lemma {:induction false} TotalWeightedSnoc(ms: seq<SkillMatch>, m: SkillMatch)
    ensures TotalWeighted(ms + [m]) == TotalWeighted(ms) + m.weightedScore
  {
    assert (ms + [m])[..|ms|] == ms;
  }

  /** The names of the matches with importance at least 0.7 and score at least 0.8, in order. */
  function StrengthsOf(ms: seq<SkillMatch>): seq<string>
  {
    if ms == [] then []
    else
      var rest := StrengthsOf(ms[..|ms| - 1]);
      var m := ms[|ms| - 1];
      if m.importance >= 0.7 && m.matchScore >= 0.8 then rest + [m.skillName] else rest
  }

  /** `round(current / total * 100)`, or 0 when the total is not positive. */
  function OverallOf(current: real, total: real): int
  {
    if total > 0.0 then RoundHalfEven(current / total * 100.0) else 0
  }

  /** The names of all job skills, or KeyError if one has no "name". */
  function AllNames(job: seq<SkillRec>): (r: Result<seq<string>>)
    ensures r.Ok? <==> forall i | 0 <= i < |job| :: job[i].name.Some?
    ensures r.Ok? ==> |r.value| == |job| && forall i | 0 <= i < |job| :: r.value[i] == job[i].name.value
    ensures r.Err? ==> r.error == KeyError
  {
    if job == [] then Ok([])
    else
      match AllNames(job[..|job| - 1])
      case Err(e) => Err(e)
      case Ok(ns) =>
        var s := job[|job| - 1];
        if s.name.None? then Err(KeyError) else Ok(ns + [s.name.value])
  }

  /** The report `compute_match_score` returns for the given skills and threshold. */
  function Report(profile: seq<SkillRec>, job: seq<SkillRec>, threshold: real, norm: Normalizer): Result<MatchReport>
  {
    if profile == [] || job == [] then
      match AllNames(job)
      case Err(e) => Err(e)
      case Ok(names) => Ok(MatchReport(0, [], names, []))
    else
      var keys := ProfileKeys(profile, norm);
      var named := NamedOnly(job);
      var ms := MatchesOf(named, keys, threshold, norm);
      Ok(MatchReport(OverallOf(TotalWeighted(ms), TotalImportance(named)), ms, MissingOf(named, keys, threshold, norm), StrengthsOf(ms)))
  }

  /** The inner loop of `compute_match_score`: the best token overlap of `name` with any key, and whether one was positive. */
  method BestPartialMatch(name: string, keys: seq<string>) returns (bestScore: real, found: bool)
    ensures bestScore == BestUpTo(name, keys, |keys|)
    ensures found <==> bestScore > 0.0
  {
    bestScore := 0.0;
    found := false;
    for i := 0 to |keys|
      invariant bestScore == BestUpTo(name, keys, i)
      invariant found <==> bestScore > 0.0
    {
      BestUpToSnoc(name, keys, i);
      var similarity := KeySimilarity(name, keys[i]);
      if similarity > bestScore {
        bestScore := similarity;
        found := true;
      }
    }
  }

  /**
   * The body of the inner loop: no score for an empty name or key or one
   * without tokens, otherwise the shared tokens over the larger token count.
   */
  method KeySimilarity(name: string, key: string) returns (similarity: real)
    ensures similarity == TokenSimilarity(name, key)
  {
    similarity := 0.0;
    if key == "" || name == "" {
      NoSimilarity(name, key);
      return;
    }
    var jobTokens := Tokens(name);
    var profileTokens := Tokens(key);
    if jobTokens != {} && profileTokens != {} {
      SimilarityOf(name, key);
      similarity := Ratio(|jobTokens * profileTokens|, Max(|jobTokens|, |profileTokens|));
    } else {
      NoSimilarity(name, key);
    }
  }

  lemma NoSimilarity(j: string, p: string)
    requires j == "" || p == "" || Tokens(j) == {} || Tokens(p) == {}
    ensures TokenSimilarity(j, p) == 0.0
  {
  }

  lemma SimilarityOf(j: string, p: string)
    requires j != "" && p != "" && Tokens(j) != {} && Tokens(p) != {}
    ensures |Tokens(j) * Tokens(p)| <= Max(|Tokens(j)|, |Tokens(p)|)
    ensures TokenSimilarity(j, p) == Ratio(|Tokens(j) * Tokens(p)|, Max(|Tokens(j)|, |Tokens(p)|))
  {
    OverlapFacts(Tokens(j), Tokens(p));
  }

  /** One more key for the inner loop: it wins only with a strictly higher similarity. */
  lemma BestUpToSnoc(j: string, keys: seq<string>, i: nat)
    requires i < |keys|
    ensures BestUpTo(j, keys, i + 1) ==
      if TokenSimilarity(j, keys[i]) > BestUpTo(j, keys, i) then TokenSimilarity(j, keys[i]) else BestUpTo(j, keys, i)
  {
  }

  /** What one more job skill adds to the matches and the missing names. */
  lemma {:induction false} StepOne(named: seq<SkillRec>, k: nat, keys: seq<string>, threshold: real, norm: Normalizer)
    requires k < |named|
    requires forall i | 0 <= i < |named| :: Named(named[i])
    ensures var o := OutcomeOf(named[k], keys, threshold, norm);
      var s := named[k];
      && MatchesOf(named[..k + 1], keys, threshold, norm) ==
           MatchesOf(named[..k], keys, threshold, norm)
           + (if o.Some? then [SkillMatch(s.name.value, ImportanceOf(s), o.value, Weighted(ImportanceOf(s), o.value))] else [])
      && MissingOf(named[..k + 1], keys, threshold, norm) ==
           MissingOf(named[..k], keys, threshold, norm) + (if o.None? then [s.name.value] else [])
  {
    assert named[..k + 1][..k] == named[..k];
  }

  /**
   * The body of the loop of `compute_match_score` for one job skill: an exact
   * key scores 1.0, otherwise the best token overlap counts if positive and at
   * least the threshold; `None` puts the skill among the missing ones.
   */
  method ScoreOne(skill: SkillRec, keys: seq<string>, threshold: real, norm: Normalizer) returns (score: Option<real>)
    requires Named(skill)
    ensures score == OutcomeOf(skill, keys, threshold, norm)
  {
    var name := norm(skill.name.value);
    if name in keys {
      return Some(1.0);
    }
    var bestScore, found := BestPartialMatch(name, keys);
    if found && bestScore >= threshold {
      score := Some(bestScore);
    } else {
      score := None;
    }
  }

  /** The loop of `compute_match_score` over the named job skills. */
  method ScoreNamed(named: seq<SkillRec>, keys: seq<string>, threshold: real, norm: Normalizer)
    returns (matches: seq<SkillMatch>, missing: seq<string>, current: real)
    requires forall i | 0 <= i < |named| :: Named(named[i])
    ensures matches == MatchesOf(named, keys, threshold, norm)
    ensures missing == MissingOf(named, keys, threshold, norm)
    ensures current == TotalWeighted(matches)
  {
    current := 0.0;
    matches := [];
    missing := [];
    for k := 0 to |named|
      invariant matches == MatchesOf(named[..k], keys, threshold, norm)
      invariant missing == MissingOf(named[..k], keys, threshold, norm)
      invariant current == TotalWeighted(matches)
    {
      var skill := named[k];
      StepOne(named, k, keys, threshold, norm);
      var importance := ImportanceOf(skill);
      var score := ScoreOne(skill, keys, threshold, norm);
      if score.Some? {
        var m := SkillMatch(skill.name.value, importance, score.value, Weighted(importance, score.value));
        TotalWeightedSnoc(matches, m);
        matches := matches + [m];
        current := current + m.weightedScore;
      } else {
        missing := missing + [skill.name.value];
      }
    }
    assert named[..|named|] == named;
  }

  /**
   * `compute_match_score`: one pass over the named job skills, looking for an
   * exact key first and otherwise for the best token overlap.
   */
  method ComputeMatchScore(profile: seq<SkillRec>, job: seq<SkillRec>, threshold: real) returns (r: Result<MatchReport>)
    ensures r == Report(profile, job, threshold, JobsUtils.Normalize)
  {
    if profile == [] || job == [] {
      var names := AllNames(job);
      if names.Err? {
        return Err(names.error);
      }
      return Ok(MatchReport(0, [], names.value, []));
    }
    var keys := ProfileKeys(profile, JobsUtils.Normalize);
    var named := NamedOnly(job);
    var total := TotalImportance(named);
    var matches, missing, current := ScoreNamed(named, keys, threshold, JobsUtils.Normalize);
    r := Ok(MatchReport(OverallOf(current, total), matches, missing, StrengthsOf(matches)));
  }

  // ---------------------------------------------------------------------------
  // What the report promises.

  /**
   * With no profile skills or no job skills the report scores 0 with no
   * matches and no strengths, and lists every job skill's name as missing, in
   * order; a job skill without "name" raises KeyError instead.
   */
  lemma EarlyReport(profile: seq<SkillRec>, job: seq<SkillRec>, threshold: real, norm: Normalizer)
    requires profile == [] || job == []
    ensures var r := Report(profile, job, threshold, norm);
      && (r.Ok? <==> forall i | 0 <= i < |job| :: job[i].name.Some?)
      && (r.Err? ==> r.error == KeyError)
      && (r.Ok? ==> r.value.overallMatch == 0 && r.value.skillMatches == [] && r.value.strengths == []
                    && |r.value.missingSkills| == |job|
                    && forall i | 0 <= i < |job| :: r.value.missingSkills[i] == job[i].name.value)
  {
  }

  function MatchNames(ms: seq<SkillMatch>): (r: seq<string>)
    ensures |r| == |ms| && forall i | 0 <= i < |ms| :: r[i] == ms[i].skillName
  {
    if ms == [] then [] else MatchNames(ms[..|ms| - 1]) + [ms[|ms| - 1].skillName]
  }

  /** The names of skills, "" standing for an absent name. */
  function NamesOf(skills: seq<SkillRec>): (r: seq<string>)
    ensures |r| == |skills|
    ensures forall i | 0 <= i < |skills| && skills[i].name.Some? :: r[i] == skills[i].name.value
  {
    if skills == [] then []
    else
      var s := skills[|skills| - 1];
      NamesOf(skills[..|skills| - 1]) + [if s.name.Some? then s.name.value else ""]
  }

  /**
   * Every named job skill lands once, in `skill_matches` or in `missing_skills`:
   * together they hold the job's names exactly as often as the job does.
   */
  lemma {:induction false} Partition(named: seq<SkillRec>, keys: seq<string>, threshold: real, norm: Normalizer)
    requires forall i | 0 <= i < |named| :: Named(named[i])
    ensures |MatchesOf(named, keys, threshold, norm)| + |MissingOf(named, keys, threshold, norm)| == |named|
    ensures multiset(MatchNames(MatchesOf(named, keys, threshold, norm))) + multiset(MissingOf(named, keys, threshold, norm))
         == multiset(NamesOf(named))
  {
    if named != [] {
      var k := |named| - 1;
      var init := named[..k];
      Partition(init, keys, threshold, norm);
      PartitionStep(named, keys, threshold, norm);
    }
  }

  /** The step of `Partition`: the last job skill adds its name to exactly one of the two lists. */
  lemma {:induction false} PartitionStep(named: seq<SkillRec>, keys: seq<string>, threshold: real, norm: Normalizer)
    requires named != []
    requires forall i | 0 <= i < |named| :: Named(named[i])
    ensures var init := named[..|named| - 1];
      var x := NamesOf(named)[|named| - 1];
      && |MatchesOf(named, keys, threshold, norm)| + |MissingOf(named, keys, threshold, norm)|
           == |MatchesOf(init, keys, threshold, norm)| + |MissingOf(init, keys, threshold, norm)| + 1
      && multiset(MatchNames(MatchesOf(named, keys, threshold, norm))) + multiset(MissingOf(named, keys, threshold, norm))
           == multiset(MatchNames(MatchesOf(init, keys, threshold, norm))) + multiset(MissingOf(init, keys, threshold, norm)) + multiset{x}
      && NamesOf(named) == NamesOf(init) + [x]
  {
    var k := |named| - 1;
    StepOne(named, k, keys, threshold, norm);
    assert named[..k + 1] == named;
    var s := named[k];
    var o := OutcomeOf(s, keys, threshold, norm);
    var ms, missing := MatchesOf(named[..k], keys, threshold, norm), MissingOf(named[..k], keys, threshold, norm);
    if o.Some? {
      var m := SkillMatch(s.name.value, ImportanceOf(s), o.value, Weighted(ImportanceOf(s), o.value));
      MatchNamesSnoc(ms, m);
      SnocFirst(MatchNames(ms), missing, s.name.value);
    } else {
      SnocSecond(MatchNames(ms), missing, s.name.value);
    }
  }

  lemma SnocFirst(a: seq<string>, b: seq<string>, x: string)
    ensures |a + [x]| + |b| == |a| + |b| + 1
    ensures multiset(a + [x]) + multiset(b) == multiset(a) + multiset(b) + multiset{x}
  {
  }

  lemma SnocSecond(a: seq<string>, b: seq<string>, x: string)
    ensures |a| + |b + [x]| == |a| + |b| + 1
    ensures multiset(a) + multiset(b + [x]) == multiset(a) + multiset(b) + multiset{x}
  {
  }

  lemma {:induction false} MatchNamesSnoc(ms: seq<SkillMatch>, m: SkillMatch)
    ensures MatchNames(ms + [m]) == MatchNames(ms) + [m.skillName]
  {
    assert (ms + [m])[..|ms|] == ms;
  }

  /** Where a missing name comes from: a job skill of that name whose outcome is `None`. */
  lemma {:induction false} MissingSource(named: seq<SkillRec>, keys: seq<string>, threshold: real, norm: Normalizer, x: string)
    requires forall i | 0 <= i < |named| :: Named(named[i])
    requires x in MissingOf(named, keys, threshold, norm)
    ensures exists i | 0 <= i < |named| :: named[i].name.value == x && OutcomeOf(named[i], keys, threshold, norm).None?
  {
    var init := named[..|named| - 1];
    if x in MissingOf(init, keys, threshold, norm) {
      MissingSource(init, keys, threshold, norm, x);
      var i :| 0 <= i < |init| && init[i].name.value == x && OutcomeOf(init[i], keys, threshold, norm).None?;
      assert named[i] == init[i];
    } else {
      assert named[|named| - 1].name.value == x;
    }
  }

  /** Where a matched name comes from: a job skill of that name whose outcome is a score. */
  lemma {:induction false} MatchSource(named: seq<SkillRec>, keys: seq<string>, threshold: real, norm: Normalizer, x: string)
    requires forall i | 0 <= i < |named| :: Named(named[i])
    requires x in MatchNames(MatchesOf(named, keys, threshold, norm))
    ensures exists i | 0 <= i < |named| :: named[i].name.value == x && OutcomeOf(named[i], keys, threshold, norm).Some?
  {
    var init := named[..|named| - 1];
    var ms := MatchesOf(init, keys, threshold, norm);
    var s := named[|named| - 1];
    var o := OutcomeOf(s, keys, threshold, norm);
    if o.Some? {
      MatchNamesSnoc(ms, SkillMatch(s.name.value, ImportanceOf(s), o.value, Weighted(ImportanceOf(s), o.value)));
    }
    if x in MatchNames(ms) {
      MatchSource(init, keys, threshold, norm, x);
      var i :| 0 <= i < |init| && init[i].name.value == x && OutcomeOf(init[i], keys, threshold, norm).Some?;
      assert named[i] == init[i];
    } else {
      assert s.name.value == x;
    }
  }

  /** No name is both matched and missing: the outcome depends on the name alone. */
  lemma {:induction false} MatchedNotMissing(named: seq<SkillRec>, keys: seq<string>, threshold: real, norm: Normalizer, x: string)
    requires forall i | 0 <= i < |named| :: Named(named[i])
    requires x in MatchNames(MatchesOf(named, keys, threshold, norm))
    ensures x !in MissingOf(named, keys, threshold, norm)
  {
    MatchSource(named, keys, threshold, norm, x);
    if x in MissingOf(named, keys, threshold, norm) {
      MissingSource(named, keys, threshold, norm, x);
    }
  }

  /** An exact match on the normalised name scores 1.0, and its weighted score is the importance. */
  lemma ExactMatch(s: SkillRec, keys: seq<string>, threshold: real, norm: Normalizer)
    requires Named(s) && norm(s.name.value) in keys
    ensures OutcomeOf(s, keys, threshold, norm) == Some(1.0)
    ensures Weighted(ImportanceOf(s), 1.0) == ImportanceOf(s)
  {
  }

  /** `strengths` are exactly the names of the matches with importance at least 0.7 and score at least 0.8. */
  lemma {:induction false} StrengthsExact(ms: seq<SkillMatch>)
    ensures forall x | x in StrengthsOf(ms) :: exists i | 0 <= i < |ms| :: ms[i].skillName == x && ms[i].importance >= 0.7 && ms[i].matchScore >= 0.8
    ensures forall i | 0 <= i < |ms| && ms[i].importance >= 0.7 && ms[i].matchScore >= 0.8 :: ms[i].skillName in StrengthsOf(ms)
  {
    if ms != [] {
      var init := ms[..|ms| - 1];
      StrengthsExact(init);
      forall x | x in StrengthsOf(ms)
        ensures exists i | 0 <= i < |ms| :: ms[i].skillName == x && ms[i].importance >= 0.7 && ms[i].matchScore >= 0.8
      {
        if x in StrengthsOf(init) {
          var i :| 0 <= i < |init| && init[i].skillName == x && init[i].importance >= 0.7 && init[i].matchScore >= 0.8;
          assert ms[i] == init[i];
        } else {
          assert ms[|ms| - 1].skillName == x;
        }
      }
      forall i | 0 <= i < |ms| && ms[i].importance >= 0.7 && ms[i].matchScore >= 0.8
        ensures ms[i].skillName in StrengthsOf(ms)
      {
        if i < |init| {
          assert init[i] == ms[i];
        }
      }
    }
  }

  lemma MulBounds(a: real, b: real)
    requires a >= 0.0 && 0.0 <= b <= 1.0
    ensures 0.0 <= Weighted(a, b) <= a
  {
  }

  /** With non-negative importances the weighted sum lies between 0 and the total importance. */
  lemma {:induction false} WeightedWithinTotal(named: seq<SkillRec>, keys: seq<string>, threshold: real, norm: Normalizer)
    requires forall i | 0 <= i < |named| :: Named(named[i]) && ImportanceOf(named[i]) >= 0.0
    ensures 0.0 <= TotalWeighted(MatchesOf(named, keys, threshold, norm)) <= TotalImportance(named)
  {
    if named != [] {
      WeightedWithinTotal(named[..|named| - 1], keys, threshold, norm);
      WeightedStep(named, keys, threshold, norm);
    }
  }

  /** The step of `WeightedWithinTotal`: the last job skill adds between 0 and its importance. */
  lemma {:induction false} WeightedStep(named: seq<SkillRec>, keys: seq<string>, threshold: real, norm: Normalizer)
    requires named != []
    requires forall i | 0 <= i < |named| :: Named(named[i]) && ImportanceOf(named[i]) >= 0.0
    ensures var init := named[..|named| - 1];
      var d := TotalWeighted(MatchesOf(named, keys, threshold, norm)) - TotalWeighted(MatchesOf(init, keys, threshold, norm));
      0.0 <= d <= TotalImportance(named) - TotalImportance(init)
  {
    var k := |named| - 1;
    StepOne(named, k, keys, threshold, norm);
    assert named[..k + 1] == named;
    var s := named[k];
    assert Named(s) && ImportanceOf(s) >= 0.0;
    var o := OutcomeOf(s, keys, threshold, norm);
    assert TotalImportance(named) == TotalImportance(named[..k]) + ImportanceOf(s);
    if o.Some? {
      assert 0.0 <= o.value <= 1.0;
      var m := SkillMatch(s.name.value, ImportanceOf(s), o.value, Weighted(ImportanceOf(s), o.value));
      TotalWeightedSnoc(MatchesOf(named[..k], keys, threshold, norm), m);
      MulBounds(ImportanceOf(s), o.value);
    }
  }

  lemma {:induction false} RatioPercent(cur: real, total: real)
    requires 0.0 <= cur <= total && total > 0.0
    ensures 0.0 <= cur / total * 100.0 <= 100.0
  {
    assert cur / total <= 1.0 by {
      assert cur / total * total == cur;
    }
  }

  /** With non-negative importances `overall_match` lies in [0, 100]. */
  lemma {:induction false} OverallBounds(profile: seq<SkillRec>, job: seq<SkillRec>, threshold: real, norm: Normalizer)
    requires forall i | 0 <= i < |job| :: ImportanceOf(job[i]) >= 0.0
    requires Report(profile, job, threshold, norm).Ok?
    ensures 0 <= Report(profile, job, threshold, norm).value.overallMatch <= 100
  {
    if profile != [] && job != [] {
      var named := NamedOnly(job);
      var keys := ProfileKeys(profile, norm);
      WeightedWithinTotal(named, keys, threshold, norm);
      var cur, total := TotalWeighted(MatchesOf(named, keys, threshold, norm)), TotalImportance(named);
      if total > 0.0 {
        RatioPercent(cur, total);
        RoundWithin(cur / total * 100.0, 0, 100);
      }
    }
  }

  // The messages of generate_recommendation, each split after its opening band word.
  const ExcellentAdvice := "Excellent" + " Match: This candidate has most of the required skills and would be an excellent fit for this position."
  const GoodAdvice := "Good" + " Match: This candidate has many of the required skills and would likely be a good fit with some training."
  const ModerateAdvice := "Moderate" + " Match: This candidate has some of the required skills but may need significant training or may not be ideal for this specific role."
  const WeakAdvice := "Weak" + " Match: This candidate is missing many critical skills required for this position."
  const PoorAdvice := "Poor" + " Match: This candidate does not appear to have the necessary skills for this position."

  /** The message of each band. */
  function Advice(b: Band): string
  {
    match b
    case Excellent => ExcellentAdvice
    case Good => GoodAdvice
    case Moderate => ModerateAdvice
    case Weak => WeakAdvice
    case Poor => PoorAdvice
  }

  /** `generate_recommendation(match_percentage)`: the message of the percentage's band. */
  function GenerateRecommendation(p: real): (r: string)
    ensures r == Advice(BandOf(p))
  {
    if p >= 85.0 then ExcellentAdvice
    else if p >= 70.0 then GoodAdvice
    else if p >= 50.0 then ModerateAdvice
    else if p >= 30.0 then WeakAdvice
    else PoorAdvice
  }

  /** Each message opens with its band's own word, so the message names the band. */
  lemma AdviceNamesBand(a: Band, b: Band)
    ensures Advice(a) == Advice(b) <==> a == b
  {
    assert ExcellentAdvice[0] == 'E' && GoodAdvice[0] == 'G' && ModerateAdvice[0] == 'M';
    assert WeakAdvice[0] == 'W' && PoorAdvice[0] == 'P';
  }

  /** Two percentages get the same message exactly when they fall in the same band. */
  lemma RecommendationNamesBand(p: real, q: real)
    ensures GenerateRecommendation(p) == GenerateRecommendation(q) <==> BandOf(p) == BandOf(q)
  {
    AdviceNamesBand(BandOf(p), BandOf(q));
  }

  // ---- Building the skill lists from loosely shaped profile and job dicts ----

  /** What `extract_job_skills` makes of one entry of a job's "skills" list, if it keeps it. */
  function JobSkill(item: Json): (r: Option<Json>)
    ensures r.Some? <==> (item.JObj? && Has(item.fields, "name")) || item.JStr?
    ensures r.Some? ==> r.value.JObj? && Has(r.value.fields, "name") && Has(r.value.fields, "importance")
  {
    if item.JObj? && Has(item.fields, "name") then
      if Has(item.fields, "importance") then Some(item)
      else
        KeysOfTwo(("name", GetOr(item.fields, "name", JNull)), ("importance", JNum(0.5)));
        Some(JObj([("name", GetOr(item.fields, "name", JNull)), ("importance", JNum(0.5))]))
    else if item.JStr? then
      KeysOfTwo(("name", item), ("importance", JNum(0.5)));
      Some(JObj([("name", item), ("importance", JNum(0.5))]))
    else None
  }

  /** The kept entries of a job's "skills" list, in order. */
  function JobSkillList(items: seq<Json>): (r: seq<Json>)
    ensures |r| <= |items|
    ensures forall i | 0 <= i < |r| :: r[i].JObj? && Has(r[i].fields, "name") && Has(r[i].fields, "importance")
  {
    if items == [] then []
    else
      var rest := JobSkillList(items[..|items| - 1]);
      match JobSkill(items[|items| - 1])
      case Some(e) => rest + [e]
      case None => rest
  }

  /** `extract_job_skills(job)`. */
  function JobSkillsOf(job: Fields): seq<Json>
  {
    match Get(job, "skills")
    case Some(JArr(items)) => JobSkillList(items)
    case _ => []
  }

  method ExtractJobSkills(job: Fields) returns (skills: seq<Json>)
    ensures skills == JobSkillsOf(job)
    ensures forall i | 0 <= i < |skills| :: skills[i].JObj? && Has(skills[i].fields, "name") && Has(skills[i].fields, "importance")
  {
    skills := [];
    var g := Get(job, "skills");
    if g.Some? && g.value.JArr? {
      var items := g.value.items;
      for i := 0 to |items|
        invariant skills == JobSkillList(items[..i])
      {
        assert items[..i + 1][..i] == items[..i];
        var skill := items[i];
        if skill.JObj? && Has(skill.fields, "name") {
          if Has(skill.fields, "importance") {
            skills := skills + [skill];
          } else {
            skills := skills + [JObj([("name", GetOr(skill.fields, "name", JNull)), ("importance", JNum(0.5))])];
          }
        } else if skill.JStr? {
          skills := skills + [JObj([("name", skill), ("importance", JNum(0.5))])];
        }
      }
      assert items[..|items|] == items;
    }
  }

  /** A job skill list whose entries are all dicts with a name and an importance comes back unchanged. */
  lemma {:induction false} JobSkillsKeepWeighted(items: seq<Json>)
    requires forall i | 0 <= i < |items| :: items[i].JObj? && Has(items[i].fields, "name") && Has(items[i].fields, "importance")
    ensures JobSkillList(items) == items
  {
    if items != [] {
      JobSkillsKeepWeighted(items[..|items| - 1]);
      assert items[..|items| - 1] + [items[|items| - 1]] == items;
    }
  }

  /** A job skill list of strings becomes one `{name, importance: 0.5}` dict per string, in order. */
  lemma {:induction false} JobSkillsFromStrings(items: seq<Json>)
    requires forall i | 0 <= i < |items| :: items[i].JStr?
    ensures |JobSkillList(items)| == |items|
    ensures forall i | 0 <= i < |items| :: JobSkillList(items)[i] == JObj([("name", items[i]), ("importance", JNum(0.5))])
  {
    if items != [] {
      JobSkillsFromStrings(items[..|items| - 1]);
    }
  }

  /** A name dict with no importance gets importance 0.5 and keeps only its name. */
  lemma {:induction false} DefaultImportance(fs: Fields)
    requires Has(fs, "name") && !Has(fs, "importance")
    ensures JobSkillList([JObj(fs)]) == [JObj([("name", Get(fs, "name").value), ("importance", JNum(0.5))])]
  {
    assert [JObj(fs)][..0] == [];
  }

  /** What `extract_profile_skills` keeps of one entry of a profile's "skills" list. */
  function ProfileSkill(item: Json): Option<Json>
  {
    if item.JStr? then Some(JObj([("name", item)]))
    else if item.JObj? && Has(item.fields, "name") then Some(item)
    else None
  }

  /** The kept entries of a profile's "skills" list, in order. */
  function ProfileSkillList(items: seq<Json>): (r: seq<Json>)
    ensures |r| <= |items|
    ensures forall i | 0 <= i < |r| :: r[i].JObj? && Has(r[i].fields, "name")
  {
    if items == [] then []
    else
      var rest := ProfileSkillList(items[..|items| - 1]);
      match ProfileSkill(items[|items| - 1])
      case Some(e) => rest + [e]
      case None => rest
  }

  /**
   * `normalize_skill_name(v)` for any value `v`: a string is normalised, a
   * falsy value gives "", and any other value has no `lower` (AttributeError).
   */
  function NormJ(v: Json, norm: Normalizer): (r: Result<string>)
    ensures r.Err? <==> !v.JStr? && Truthy(v)
  {
    if v.JStr? then Ok(norm(v.s))
    else if !Truthy(v) then Ok("")
    else Err(AttributeError)
  }

  /** `s.get("name", "")` of a skill dict. */
  function NameOf(s: Json): Json
  {
    if s.JObj? then GetOr(s.fields, "name", JStr("")) else JStr("")
  }

  /**
   * `any(normalize_skill_name(s.get("name", "")) == nt for s in skills[i:])`:
   * the scan stops at the first hit, and an error raised before it propagates.
   */
  function AnyNormalized(skills: seq<Json>, nt: string, norm: Normalizer, i: nat): (r: Result<bool>)
    requires i <= |skills|
    ensures r == Ok(false) <==> forall k | i <= k < |skills| :: NormJ(NameOf(skills[k]), norm).Ok? && NormJ(NameOf(skills[k]), norm) != Ok(nt)
    ensures r == Ok(true) ==> exists k | i <= k < |skills| :: NormJ(NameOf(skills[k]), norm) == Ok(nt)
    ensures r.Err? ==> r.error == AttributeError
    decreases |skills| - i
  {
    if i == |skills| then Ok(false)
    else
      match NormJ(NameOf(skills[i]), norm)
      case Err(e) => Err(e)
      case Ok(n) => if n == nt then Ok(true) else AnyNormalized(skills, nt, norm, i + 1)
  }

  /** One project technology: a string whose normalised name is new is added as `{name: tech}`. */
  function AddTech(skills: seq<Json>, tech: Json, norm: Normalizer): (r: Result<seq<Json>>)
    ensures !tech.JStr? ==> r == Ok(skills)
    ensures tech.JStr? && r.Ok? ==>
      (r.value == skills + [JObj([("name", tech)])] <==>
         forall k | 0 <= k < |skills| :: NormJ(NameOf(skills[k]), norm) != Ok(norm(tech.s)))
    ensures r.Ok? ==> r.value == skills || r.value == skills + [JObj([("name", tech)])]
    ensures r.Err? ==> r.error == AttributeError
  {
    if !tech.JStr? then Ok(skills)
    else
      match AnyNormalized(skills, norm(tech.s), norm, 0)
      case Err(e) => Err(e)
      case Ok(found) =>
        if found then Ok(skills) else Ok(skills + [JObj([("name", tech)])])
  }

  /** A list of technologies, added in order; the first error stops it. */
  function AddTechs(skills: seq<Json>, techs: seq<Json>, norm: Normalizer): Result<seq<Json>>
  {
    if techs == [] then Ok(skills)
    else
      match AddTechs(skills, techs[..|techs| - 1], norm)
      case Err(e) => Err(e)
      case Ok(acc) => AddTech(acc, techs[|techs| - 1], norm)
  }

  /** The "technologies" list of a project dict, or nothing. */
  function TechsOf(project: Json): seq<Json>
  {
    if project.JObj? then
      match Get(project.fields, "technologies")
      case Some(JArr(ts)) => ts
      case _ => []
    else []
  }

  function AddProjects(skills: seq<Json>, projects: seq<Json>, norm: Normalizer): Result<seq<Json>>
  {
    if projects == [] then Ok(skills)
    else
      match AddProjects(skills, projects[..|projects| - 1], norm)
      case Err(e) => Err(e)
      case Ok(acc) => AddTechs(acc, TechsOf(projects[|projects| - 1]), norm)
  }

  function ProfileBase(profile: Fields): seq<Json>
  {
    match Get(profile, "skills")
    case Some(JArr(items)) => ProfileSkillList(items)
    case _ => []
  }

  function ProjectsOf(profile: Fields): seq<Json>
  {
    match Get(profile, "projects")
    case Some(JArr(ps)) => ps
    case _ => []
  }

  /** `extract_profile_skills(profile)`. */
  function ProfileSkillsOf(profile: Fields, norm: Normalizer): Result<seq<Json>>
  {
    AddProjects(ProfileBase(profile), ProjectsOf(profile), norm)
  }

  /** The `any(...)` scan of `extract_profile_skills`. */
  method HasNormalized(skills: seq<Json>, nt: string, norm: Normalizer) returns (r: Result<bool>)
    ensures r == AnyNormalized(skills, nt, norm, 0)
  {
    for i := 0 to |skills|
      invariant AnyNormalized(skills, nt, norm, 0) == AnyNormalized(skills, nt, norm, i)
    {
      var n := NormJ(NameOf(skills[i]), norm);
      if n.Err? {
        return Err(n.error);
      }
      if n.value == nt {
        return Ok(true);
      }
    }
    return Ok(false);
  }

  /** Once adding a prefix of the technologies fails, adding all of them fails the same way. */
  lemma {:induction false} AddTechsErr(skills: seq<Json>, techs: seq<Json>, k: nat, norm: Normalizer)
    requires k <= |techs|
    requires AddTechs(skills, techs[..k], norm).Err?
    ensures AddTechs(skills, techs, norm) == AddTechs(skills, techs[..k], norm)
    decreases |techs| - k
  {
    if k < |techs| {
      assert techs[..k + 1][..k] == techs[..k];
      AddTechsErr(skills, techs, k + 1, norm);
    } else {
      assert techs[..k] == techs;
    }
  }

  lemma {:induction false} AddProjectsErr(skills: seq<Json>, projects: seq<Json>, k: nat, norm: Normalizer)
    requires k <= |projects|
    requires AddProjects(skills, projects[..k], norm).Err?
    ensures AddProjects(skills, projects, norm) == AddProjects(skills, projects[..k], norm)
    decreases |projects| - k
  {
    if k < |projects| {
      assert projects[..k + 1][..k] == projects[..k];
      AddProjectsErr(skills, projects, k + 1, norm);
    } else {
      assert projects[..k] == projects;
    }
  }

  /** The technology loop of `extract_profile_skills` for one project. */
  method AddTechnologies(skills0: seq<Json>, techs: seq<Json>, norm: Normalizer) returns (r: Result<seq<Json>>)
    ensures r == AddTechs(skills0, techs, norm)
  {
    var skills := skills0;
    for i := 0 to |techs|
      invariant AddTechs(skills0, techs[..i], norm) == Ok(skills)
    {
      assert techs[..i + 1][..i] == techs[..i];
      var tech := techs[i];
      if tech.JStr? {
        var found := HasNormalized(skills, norm(tech.s), norm);
        if found.Err? {
          AddTechsErr(skills0, techs, i + 1, norm);
          return Err(found.error);
        }
        if !found.value {
          skills := skills + [JObj([("name", tech)])];
        }
      }
    }
    assert techs[..|techs|] == techs;
    return Ok(skills);
  }

  method ExtractProfileSkills(profile: Fields, norm: Normalizer) returns (r: Result<seq<Json>>)
    ensures r == ProfileSkillsOf(profile, norm)
  {
    var skills := [];
    var g := Get(profile, "skills");
    if g.Some? && g.value.JArr? {
      skills := ListedSkills(g.value.items);
    }
    r := AddAllProjects(skills, ProjectsOf(profile), norm);
  }

  /** The first loop of `extract_profile_skills`: the listed skills, as dicts. */
  method ListedSkills(items: seq<Json>) returns (skills: seq<Json>)
    ensures skills == ProfileSkillList(items)
  {
    skills := [];
    for i := 0 to |items|
      invariant skills == ProfileSkillList(items[..i])
    {
      assert items[..i + 1][..i] == items[..i];
      var skill := items[i];
      if skill.JStr? {
        skills := skills + [JObj([("name", skill)])];
      } else if skill.JObj? && Has(skill.fields, "name") {
        skills := skills + [skill];
      }
    }
    assert items[..|items|] == items;
  }

  /** The project loop of `extract_profile_skills`, stopping at the first error. */
  method AddAllProjects(base: seq<Json>, projects: seq<Json>, norm: Normalizer) returns (r: Result<seq<Json>>)
    ensures r == AddProjects(base, projects, norm)
  {
    var skills := base;
    for p := 0 to |projects|
      invariant AddProjects(base, projects[..p], norm) == Ok(skills)
    {
      assert projects[..p + 1][..p] == projects[..p];
      var added := AddTechnologies(skills, TechsOf(projects[p]), norm);
      if added.Err? {
        AddProjectsErr(base, projects, p + 1, norm);
        return Err(added.error);
      }
      skills := added.value;
    }
    assert projects[..|projects|] == projects;
    return Ok(skills);
  }

  /**
   * Entries from position `b` on have normalised names unlike every earlier
   * entry: a project technology is added only if its name is new.
   */
  predicate FreshAfter(out: seq<Json>, b: nat, norm: Normalizer)
  {
    forall i, j | 0 <= i < j < |out| && b <= j :: NormJ(NameOf(out[i]), norm) != NormJ(NameOf(out[j]), norm)
  }

  lemma {:induction false} AddTechFresh(skills: seq<Json>, tech: Json, b: nat, norm: Normalizer)
    requires FreshAfter(skills, b, norm)
    requires AddTech(skills, tech, norm).Ok?
    ensures FreshAfter(AddTech(skills, tech, norm).value, b, norm)
    ensures AddTech(skills, tech, norm).value[..|skills|] == skills
  {
    var out := AddTech(skills, tech, norm).value;
    if out != skills {
      var e := JObj([("name", tech)]);
      assert out == skills + [e];
      assert NormJ(NameOf(e), norm) == Ok(norm(tech.s));
    }
  }

  lemma {:induction false} AddTechsFresh(skills: seq<Json>, techs: seq<Json>, b: nat, norm: Normalizer)
    requires FreshAfter(skills, b, norm)
    requires AddTechs(skills, techs, norm).Ok?
    ensures FreshAfter(AddTechs(skills, techs, norm).value, b, norm)
    ensures |skills| <= |AddTechs(skills, techs, norm).value|
    ensures AddTechs(skills, techs, norm).value[..|skills|] == skills
  {
    if techs != [] {
      var init := techs[..|techs| - 1];
      AddTechsFresh(skills, init, b, norm);
      var acc := AddTechs(skills, init, norm).value;
      AddTechFresh(acc, techs[|techs| - 1], b, norm);
      var out := AddTechs(skills, techs, norm).value;
      assert out[..|acc|] == acc;
      assert out[..|skills|] == acc[..|skills|];
    }
  }

  lemma {:induction false} AddProjectsFresh(skills: seq<Json>, projects: seq<Json>, b: nat, norm: Normalizer)
    requires FreshAfter(skills, b, norm)
    requires AddProjects(skills, projects, norm).Ok?
    ensures FreshAfter(AddProjects(skills, projects, norm).value, b, norm)
    ensures |skills| <= |AddProjects(skills, projects, norm).value|
    ensures AddProjects(skills, projects, norm).value[..|skills|] == skills
  {
    if projects != [] {
      var init := projects[..|projects| - 1];
      AddProjectsFresh(skills, init, b, norm);
      var acc := AddProjects(skills, init, norm).value;
      AddTechsFresh(acc, TechsOf(projects[|projects| - 1]), b, norm);
      var out := AddProjects(skills, projects, norm).value;
      assert out[..|acc|] == acc;
      assert out[..|skills|] == acc[..|skills|];
    }
  }

  /**
   * The profile's own skill entries come first and unchanged; every project
   * technology after them has a normalised name that no earlier entry has.
   */
  lemma {:induction false} ProfileSkillsFresh(profile: Fields, norm: Normalizer)
    requires ProfileSkillsOf(profile, norm).Ok?
    ensures var out := ProfileSkillsOf(profile, norm).value;
      var base := ProfileBase(profile);
      |base| <= |out| && out[..|base|] == base && FreshAfter(out, |base|, norm)
  {
    AddProjectsFresh(ProfileBase(profile), ProjectsOf(profile), |ProfileBase(profile)|, norm);
  }
}

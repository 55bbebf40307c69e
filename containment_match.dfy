/**
 * The containment matcher shared by the profile/job matcher over typed
 * records and the one over plain dicts: every requirement scores the best
 * importance-times-level over the profile skills whose normalised names are
 * equal to it or contain it or are contained in it.
 */
module ContainmentMatch {
  import opened Wrappers
  import opened Text
  import opened Bands
  import opened PyRound

  /**
   * A profile skill as the matcher sees it: its normalised name and the level
   * factor it contributes, or the error that computing that factor raises
   * (the factor is only computed for a skill whose name matches).
   */
  datatype Candidate = Candidate(key: string, level: Result<real>)

  /** The running `highest_match` and `candidate_level` of one requirement. */
  datatype Best = Best(highest: real, level: real)

  /** One entry of `skill_matches`; `L` is the type of the requirement's skill label. */
  datatype SkillMatch<L> = SkillMatch(skill: L, jobImportance: real, candidateLevel: real, matchScore: real)

  /** The level factor of a lower-cased level name: expert and advanced 1.0, intermediate 0.7, beginner and basic 0.4, anything else 1.0. */
  function LevelTable(l: string): (r: real)
    ensures r == 1.0 || r == 0.7 || r == 0.4
    ensures r == 0.7 <==> l == "intermediate"
    ensures r == 0.4 <==> l == "beginner" || l == "basic"
  {
    if l == "expert" || l == "advanced" then 1.0
    else if l == "intermediate" then 0.7
    else if l == "beginner" || l == "basic" then 0.4
    else 1.0
  }

  /** Equal normalised names, or either contains the other. */
  predicate Matches(req: string, cand: string)
  {
    cand == req || IsInfix(req, cand) || IsInfix(cand, req)
  }

  /** `req.importance * skill_level`. */
  function Value(importance: real, level: real): real
  {
    importance * level
  }

  /** The level factor of a candidate, 0.0 standing in when it cannot be computed. */
  function LevelAt(c: Candidate): real
  {
    if c.level.Ok? then c.level.value else 0.0
  }

  /**
   * Candidate `k` sets the best: it matches, its value is the highest, its
   * level is the recorded one, and no earlier matching candidate reached it.
   */
  predicate FirstAttainer(key: string, importance: real, cands: seq<Candidate>, k: nat, b: Best)
    requires k < |cands|
  {
    && Matches(key, cands[k].key)
    && cands[k].level == Ok(b.level)
    && Value(importance, b.level) == b.highest
    && forall k' | 0 <= k' < k && Matches(key, cands[k'].key) :: Value(importance, LevelAt(cands[k'])) < b.highest
  }

  /**
   * The inner loop over the profile skills for one requirement: the strictly
   * greater value replaces the best one, so the first candidate reaching the
   * maximum supplies `candidate_level`; a level that cannot be computed for a
   * matching candidate stops the loop with its error.
   */
  function BestOf(key: string, importance: real, cands: seq<Candidate>): (r: Result<Best>)
    ensures r.Err? <==> exists k | 0 <= k < |cands| :: Matches(key, cands[k].key) && cands[k].level.Err?
    ensures r.Err? ==> exists k | 0 <= k < |cands| :: Matches(key, cands[k].key) && cands[k].level == Err(r.error)
    ensures r.Ok? ==> 0.0 <= r.value.highest
    ensures r.Ok? ==> forall k | 0 <= k < |cands| && Matches(key, cands[k].key) ::
      cands[k].level.Ok? && Value(importance, cands[k].level.value) <= r.value.highest
    ensures r.Ok? && r.value.highest == 0.0 ==> r.value.level == 0.0
    ensures r.Ok? && r.value.highest != 0.0 ==> exists k | 0 <= k < |cands| :: FirstAttainer(key, importance, cands, k, r.value)
  {
    if cands == [] then Ok(Best(0.0, 0.0))
    else
      var init := cands[..|cands| - 1];
      var c := cands[|cands| - 1];
      var prev := BestOf(key, importance, init);
      assert forall k | 0 <= k < |init| :: init[k] == cands[k];
      AttainerExtends(key, importance, init, cands, prev);
      if prev.Err? then prev
      else if !Matches(key, c.key) then prev
      else if c.level.Err? then Err(c.level.error)
      else
        var v := Value(importance, c.level.value);
        if v > prev.value.highest then
          var b := Best(v, c.level.value);
          assert FirstAttainer(key, importance, cands, |cands| - 1, b);
          Ok(b)
        else
          prev
  }

  /** A first attainer among all but the last candidate is still one among all of them. */
  lemma {:induction false} AttainerExtends(key: string, importance: real, init: seq<Candidate>, cands: seq<Candidate>, prev: Result<Best>)
    requires cands != [] && init == cands[..|cands| - 1]
    requires prev.Ok? && prev.value.highest != 0.0 ==>
      exists k | 0 <= k < |init| :: FirstAttainer(key, importance, init, k, prev.value)
    ensures prev.Ok? && prev.value.highest != 0.0 ==>
      exists k | 0 <= k < |cands| :: FirstAttainer(key, importance, cands, k, prev.value)
  {
    if prev.Ok? && prev.value.highest != 0.0 {
      var k :| 0 <= k < |init| && FirstAttainer(key, importance, init, k, prev.value);
      assert forall j | 0 <= j < |init| :: init[j] == cands[j];
      assert FirstAttainer(key, importance, cands, k, prev.value);
    }
  }

  /** Once a prefix of the candidates raises, all of them raise the same error. */
  lemma {:induction false} BestOfErr(key: string, importance: real, cands: seq<Candidate>, n: nat)
    requires n <= |cands|
    requires BestOf(key, importance, cands[..n]).Err?
    ensures BestOf(key, importance, cands) == BestOf(key, importance, cands[..n])
    decreases |cands| - n
  {
    if n < |cands| {
      assert cands[..n + 1][..n] == cands[..n];
      BestOfErr(key, importance, cands, n + 1);
    } else {
      assert cands[..n] == cands;
    }
  }

  /** `highest_match` and `candidate_level` for one requirement, by the nested loop of the source. */
  method HighestMatch(key: string, importance: real, cands: seq<Candidate>) returns (r: Result<Best>)
    ensures r == BestOf(key, importance, cands)
  {
    var highest := 0.0;
    var level := 0.0;
    for i := 0 to |cands|
      invariant BestOf(key, importance, cands[..i]) == Ok(Best(highest, level))
    {
      assert cands[..i + 1][..i] == cands[..i];
      var c := cands[i];
      if Matches(key, c.key) {
        if c.level.Err? {
          BestOfErr(key, importance, cands, i + 1);
          return Err(c.level.error);
        }
        var v := Value(importance, c.level.value);
        if v > highest {
          highest := v;
          level := c.level.value;
        }
      }
    }
    assert cands[..|cands|] == cands;
    return Ok(Best(highest, level));
  }

  /** Every level factor that can be computed is one the level table yields: 1.0, 0.7 or 0.4. */
  predicate GoodLevels(cands: seq<Candidate>)
  {
    forall k | 0 <= k < |cands| :: cands[k].level.Ok? ==> 0.0 < cands[k].level.value <= 1.0
  }

  lemma MulWithin(importance: real, level: real)
    requires 0.0 <= importance && 0.0 < level <= 1.0
    ensures 0.0 <= Value(importance, level) <= importance
    ensures importance > 0.0 ==> Value(importance, level) > 0.0
  {
  }

  /** A requirement never scores more than its importance. */
  lemma {:induction false} HighestWithin(key: string, importance: real, cands: seq<Candidate>)
    requires 0.0 <= importance && GoodLevels(cands)
    requires BestOf(key, importance, cands).Ok?
    ensures BestOf(key, importance, cands).value.highest <= importance
  {
    var b := BestOf(key, importance, cands).value;
    if b.highest != 0.0 {
      var k :| 0 <= k < |cands| && FirstAttainer(key, importance, cands, k, b);
      MulWithin(importance, b.level);
    }
  }

  /**
   * With a positive importance and levels from the level table, a requirement
   * scores 0 exactly when no profile skill matches it.
   */
  lemma {:induction false} ZeroIffNoMatch(key: string, importance: real, cands: seq<Candidate>)
    requires 0.0 < importance && GoodLevels(cands)
    requires BestOf(key, importance, cands).Ok?
    ensures BestOf(key, importance, cands).value.highest == 0.0 <==> forall k | 0 <= k < |cands| :: !Matches(key, cands[k].key)
  {
    var b := BestOf(key, importance, cands).value;
    if b.highest == 0.0 {
      forall k | 0 <= k < |cands|
        ensures !Matches(key, cands[k].key)
      {
        if Matches(key, cands[k].key) {
          MulWithin(importance, cands[k].level.value);
        }
      }
    } else {
      var k :| 0 <= k < |cands| && FirstAttainer(key, importance, cands, k, b);
    }
  }

  /** Python's `x in s` for strings: "" is in every string, and every string is in itself. */
  lemma {:induction false} EmptyMatchesAll(key: string)
    ensures Matches("", key) && Matches(key, key)
  {
    InfixAt([], [], key);
    InfixAt([], key, []);
    assert [] + key + [] == key;
  }

  /** The recommendation sentence of a band, the same in both matchers. */
  function Recommendation(b: Band): string
  {
    match b
    case Excellent => "Excellent match - Highly recommended for this position"
    case Good => "Good match - Strong candidate for this position"
    case Moderate => "Moderate match - Consider with additional training"
    case Weak => "Weak match - Significant skill gaps for this position"
    case Poor => "Poor match - Not recommended for this position"
  }

  /** The sum of the `match_score`s. */
  function TotalScore<L>(ms: seq<SkillMatch<L>>): real
  {
    if ms == [] then 0.0 else TotalScore(ms[..|ms| - 1]) + ms[|ms| - 1].matchScore
  }

  lemma {:induction false} TotalScoreSnoc<L>(ms: seq<SkillMatch<L>>, m: SkillMatch<L>)
    ensures TotalScore(ms + [m]) == TotalScore(ms) + m.matchScore
  {
    assert (ms + [m])[..|ms|] == ms;
  }

  /** The sum of the `job_importance`s. */
  function TotalImportance<L>(ms: seq<SkillMatch<L>>): real
  {
    if ms == [] then 0.0 else TotalImportance(ms[..|ms| - 1]) + ms[|ms| - 1].jobImportance
  }

  /** `(match_score / total_importance) * 100 if total_importance > 0 else 0`. */
  function Overall(score: real, total: real): real
  {
    if total > 0.0 then score / total * 100.0 else 0.0
  }

  predicate IsMissing<L>(m: SkillMatch<L>)
  {
    m.matchScore == 0.0
  }

  predicate IsStrength<L>(m: SkillMatch<L>)
  {
    m.matchScore >= 0.7 * m.jobImportance && m.matchScore > 0.0
  }

  /** `missing_skills`: the skills of the entries scoring 0, in order. */
  function MissingOf<L>(ms: seq<SkillMatch<L>>): (r: seq<L>)
    ensures |r| <= |ms|
  {
    if ms == [] then []
    else
      var rest := MissingOf(ms[..|ms| - 1]);
      if IsMissing(ms[|ms| - 1]) then rest + [ms[|ms| - 1].skill] else rest
  }

  /** `strengths`: the skills of the entries scoring at least 70% of their importance, and above 0, in order. */
  function StrengthsOf<L>(ms: seq<SkillMatch<L>>): (r: seq<L>)
    ensures |r| <= |ms|
  {
    if ms == [] then []
    else
      var rest := StrengthsOf(ms[..|ms| - 1]);
      if IsStrength(ms[|ms| - 1]) then rest + [ms[|ms| - 1].skill] else rest
  }

  /** The entries that are missing and those that are strengths, as index sets. */
  function MissingIndices<L>(ms: seq<SkillMatch<L>>): set<nat>
  {
    set i: nat | i < |ms| && IsMissing(ms[i])
  }

  function StrengthIndices<L>(ms: seq<SkillMatch<L>>): set<nat>
  {
    set i: nat | i < |ms| && IsStrength(ms[i])
  }

  /** No requirement is both missing and a strength. */
  lemma MissingNotStrength<L>(ms: seq<SkillMatch<L>>)
    ensures MissingIndices(ms) * StrengthIndices(ms) == {}
  {
    forall i | i in MissingIndices(ms) * StrengthIndices(ms)
      ensures false
    {
    }
  }

  /**
   * The missing list holds, in order, exactly the skills of the entries that
   * score 0: it lists one skill per such entry.
   */
  lemma {:induction false} MissingCount<L>(ms: seq<SkillMatch<L>>)
    ensures |MissingOf(ms)| == |MissingIndices(ms)|
  {
    if ms != [] {
      var init := ms[..|ms| - 1];
      MissingCount(init);
      var n := |ms| - 1;
      assert forall i | 0 <= i < n :: init[i] == ms[i];
      if IsMissing(ms[n]) {
        assert MissingIndices(ms) == MissingIndices(init) + {n};
      } else {
        assert MissingIndices(ms) == MissingIndices(init);
      }
    }
  }

  /** With distinct skill labels the two lists share no skill. */
  lemma {:induction false} MissingStrengthsDisjoint<L>(ms: seq<SkillMatch<L>>)
    requires forall i, j | 0 <= i < j < |ms| :: ms[i].skill != ms[j].skill
    ensures forall x | x in MissingOf(ms) :: x !in StrengthsOf(ms)
  {
    if ms != [] {
      var init := ms[..|ms| - 1];
      var last := ms[|ms| - 1];
      assert forall i | 0 <= i < |init| :: init[i] == ms[i];
      MissingStrengthsDisjoint(init);
      LabelsFrom(init);
      assert last.skill !in Labels(init);
      MissingFrom(init);
      StrengthsFrom(init);
    }
  }

  function Labels<L>(ms: seq<SkillMatch<L>>): set<L>
  {
    set i | 0 <= i < |ms| :: ms[i].skill
  }

  lemma LabelsFrom<L>(ms: seq<SkillMatch<L>>)
    ensures forall i | 0 <= i < |ms| :: ms[i].skill in Labels(ms)
  {
  }

  lemma {:induction false} MissingFrom<L>(ms: seq<SkillMatch<L>>)
    ensures forall x | x in MissingOf(ms) :: x in Labels(ms)
  {
    if ms != [] {
      var init := ms[..|ms| - 1];
      MissingFrom(init);
      assert forall i | 0 <= i < |init| :: init[i] == ms[i];
      assert Labels(init) <= Labels(ms);
    }
  }

  lemma {:induction false} StrengthsFrom<L>(ms: seq<SkillMatch<L>>)
    ensures forall x | x in StrengthsOf(ms) :: x in Labels(ms)
  {
    if ms != [] {
      var init := ms[..|ms| - 1];
      StrengthsFrom(init);
      assert forall i | 0 <= i < |init| :: init[i] == ms[i];
      assert Labels(init) <= Labels(ms);
    }
  }

  /** The same skill required twice can be listed both as missing and as a strength. */
  lemma {:induction false} RepeatedSkillInBoth()
    ensures var ms := [SkillMatch("go", 1.0, 1.0, 1.0), SkillMatch("go", 0.0, 0.0, 0.0)];
      "go" in MissingOf(ms) && "go" in StrengthsOf(ms)
  {
    var ms := [SkillMatch("go", 1.0, 1.0, 1.0), SkillMatch("go", 0.0, 0.0, 0.0)];
    assert ms[..1] == [ms[0]];
    assert ms[..1][..0] == [];
  }

  /** Entries that score within their non-negative importance give a total score within the total importance. */
  lemma {:induction false} ScoreWithinImportance<L>(ms: seq<SkillMatch<L>>)
    requires forall i | 0 <= i < |ms| :: 0.0 <= ms[i].matchScore <= ms[i].jobImportance
    ensures 0.0 <= TotalScore(ms) <= TotalImportance(ms)
  {
    if ms != [] {
      ScoreWithinImportance(ms[..|ms| - 1]);
    }
  }

  /** The overall match is a percentage. */
  lemma {:induction false} OverallWithin(score: real, total: real)
    requires 0.0 <= score <= total
    ensures 0.0 <= Overall(score, total) <= 100.0
    ensures total > 0.0 && score == total ==> Overall(score, total) == 100.0
  {
    if total > 0.0 {
      UnitQuotient(score, total);
    }
  }

  /** A share of a positive whole lies in [0, 1], and the whole over itself is 1. */
  lemma {:induction false} UnitQuotient(part: real, whole: real)
    requires 0.0 <= part <= whole && whole > 0.0
    ensures 0.0 <= part / whole <= 1.0
    ensures part == whole ==> part / whole == 1.0
  {
    var q := part / whole;
    assert q * whole == part;
    ScaleLe(q, 1.0, whole);
    ScaleLe(0.0, q, whole);
    ScaleEq(q, 1.0, whole);
  }
}

/**
 * The set-overlap matcher: the share of a job's skills that a profile has,
 * blended with an embedding similarity, the combination of a person's
 * profiles from several platforms, and each platform's share of the score.
 * Embeddings, their cosine similarity and the text-based skill extractor are
 * parameters.
 */
module MatchingEngine {
  import opened Wrappers
  import opened Json
  import opened Text

  const SkillOverlapWeight: real := 0.6
  const VectorSimilarityWeight: real := 0.4

  /** `_calculate_experience_match` always answers 0.7. */
  const ExperienceMatch: real := 0.7

  /** What `process_profile_text(text).get('skills', [])` yields for a text, or the exception it raises. */
  type Extractor = string -> Result<seq<Json>>

  /**
   * The similarity of the embeddings of two texts: `None` when either
   * embedding is empty, or the exception that embedding or comparing raises.
   */
  type Similarity = (string, string) -> Result<Option<real>>

  // ---- Python sets of JSON values ----

  /** The value a Python set stores for `j`: True and False are the numbers 1 and 0. */
  function Canon(j: Json): Json
  {
    if j.JBool? then JNum(if j.b then 1.0 else 0.0) else j
  }

  /** `set(xs)`: lists and dicts cannot be stored (TypeError). */
  function KeySet(xs: seq<Json>): (r: Result<set<Json>>)
    ensures r.Ok? <==> forall i | 0 <= i < |xs| :: Hashable(xs[i])
    ensures r.Err? ==> r.error == TypeError
    ensures r.Ok? ==> forall i | 0 <= i < |xs| :: Canon(xs[i]) in r.value
    ensures r.Ok? ==> forall x | x in r.value :: exists i | 0 <= i < |xs| :: x == Canon(xs[i])
  {
    if xs == [] then Ok({})
    else
      var init := xs[..|xs| - 1];
      var last := xs[|xs| - 1];
      assert forall i | 0 <= i < |init| :: init[i] == xs[i];
      match KeySet(init)
      case Err(e) => Err(e)
      case Ok(s) => if Hashable(last) then Ok(s + {Canon(last)}) else Err(TypeError)
  }

  /** A set built from a list has at most as many elements as the list. */
  lemma {:induction false} KeySetSize(xs: seq<Json>)
    requires KeySet(xs).Ok?
    ensures |KeySet(xs).value| <= |xs|
  {
    if xs != [] {
      var init := xs[..|xs| - 1];
      assert forall i | 0 <= i < |init| :: init[i] == xs[i];
      KeySetSize(init);
      var s := KeySet(init).value;
      var x := Canon(xs[|xs| - 1]);
      if x in s {
        assert s + {x} == s;
      }
    }
  }

  // ---- Scores ----

  /** `len(matching) / len(job_skills) if job_skills else 0`. */
  function Ratio(n: nat, d: nat): real
  {
    if d == 0 then 0.0 else n as real / d as real
  }

  /** `weights['skill_overlap'] * overlap + weights['vector_similarity'] * similarity`. */
  function Combined(overlap: real, similarity: real): real
  {
    SkillOverlapWeight * overlap + VectorSimilarityWeight * similarity
  }

  datatype Details = Details(profileSkillsCount: nat, jobSkillsCount: nat, matchingSkillsCount: nat)

  /**
   * The result of `calculate_match_score`; `details` is absent on the
   * fallback result (whose error text is not modelled).
   */
  datatype EngineScore = EngineScore(
    overallScore: real,
    skillMatch: real,
    vectorSimilarity: real,
    experienceMatch: real,
    skillsMatched: set<Json>,
    skillsMissing: set<Json>,
    details: Option<Details>)

  /** The fixed result when anything in the scoring raises. */
  const FallbackScore: EngineScore := EngineScore(0.5, 0.5, 0.5, 0.5, {}, {}, None)

  /**
   * The scoring step of `calculate_match_score` once the profile's skills are
   * known as a set of `profileCount` list entries: the job's skills, the two
   * texts and their similarity, then the set arithmetic.
   */
  function ScoreWith(profileKeys: Result<set<Json>>, profileCount: nat, jobSkills: Result<seq<Json>>,
                     similarity: Result<Option<real>>): (r: EngineScore)
    ensures r.details.None? ==> r == FallbackScore
    ensures r.details.None? <==> (profileKeys.Err? || jobSkills.Err? || similarity.Err? || KeySet(jobSkills.value).Err?)
    ensures r.details.Some? ==> r.overallScore == Combined(r.skillMatch, r.vectorSimilarity)
    ensures r.details.Some? ==> r.vectorSimilarity == if similarity.value.None? then 0.5 else similarity.value.value
    ensures r.details.Some? ==> r.experienceMatch == ExperienceMatch
    ensures r.details.Some? ==> r.details.value == Details(profileCount, |jobSkills.value|, |r.skillsMatched|)
  {
    if profileKeys.Err? || jobSkills.Err? || similarity.Err? then FallbackScore
    else
      var js := jobSkills.value;
      match KeySet(js)
      case Err(_) => FallbackScore
      case Ok(jobKeys) =>
        var matched := profileKeys.value * jobKeys;
        var missing := jobKeys - profileKeys.value;
        var overlap := Ratio(|matched|, |js|);
        var vs := if similarity.value.None? then 0.5 else similarity.value.value;
        EngineScore(Combined(overlap, vs), overlap, vs, ExperienceMatch, matched, missing,
          Some(Details(profileCount, |js|, |matched|)))
  }

  // ---- Skills and texts ----

  /** The strings among the truthy parts, in order; a truthy non-string cannot be joined (TypeError). */
  function TruthyStrings(parts: seq<Json>): (r: Result<seq<string>>)
    ensures r.Ok? <==> forall i | 0 <= i < |parts| :: parts[i].JStr? || !Truthy(parts[i])
    ensures r.Ok? ==> forall i | 0 <= i < |r.value| :: r.value[i] != ""
    ensures r.Ok? ==> |r.value| <= |parts|
    ensures r.Err? ==> r.error == TypeError
  {
    if parts == [] then Ok([])
    else
      var init := parts[..|parts| - 1];
      var p := parts[|parts| - 1];
      assert forall i | 0 <= i < |init| :: init[i] == parts[i];
      match TruthyStrings(init)
      case Err(e) => Err(e)
      case Ok(ss) =>
        if !Truthy(p) then Ok(ss)
        else if p.JStr? then Ok(ss + [p.s])
        else Err(TypeError)
  }

  /** `' '.join(filter(None, parts))`. */
  function JoinParts(parts: seq<Json>): (r: Result<string>)
    ensures r.Ok? <==> TruthyStrings(parts).Ok?
    ensures r.Ok? ==> r.value == Join(TruthyStrings(parts).value, " ")
  {
    match TruthyStrings(parts)
    case Err(e) => Err(e)
    case Ok(ss) => Ok(Join(ss, " "))
  }

  /** `' '.join(skills)`: every entry must be a string. */
  function JoinSkills(skills: seq<Json>): (r: Result<string>)
    ensures r.Ok? <==> forall i | 0 <= i < |skills| :: skills[i].JStr?
    ensures r.Err? ==> r.error == TypeError
  {
    if skills == [] then Ok("")
    else
      var init := skills[..|skills| - 1];
      assert forall i | 0 <= i < |init| :: init[i] == skills[i];
      match JoinSkills(init)
      case Err(e) => Err(e)
      case Ok(t) =>
        if !skills[|skills| - 1].JStr? then Err(TypeError)
        else if init == [] then Ok(skills[|skills| - 1].s)
        else Ok(t + " " + skills[|skills| - 1].s)
  }

  /** The parts of `_get_job_text_for_matching`: title, description, and the skills as text. */
  function JobTextParts(job: Fields): Result<seq<Json>>
  {
    var head := [GetOr(job, "title", JStr("")), GetOr(job, "description", JStr(""))];
    match GetOr(job, "skills", JArr([]))
    case JArr(items) =>
      (match JoinSkills(items)
       case Err(e) => Err(e)
       case Ok(t) => Ok(head + [JStr(t)]))
    case JStr(s) => Ok(head + [JStr(s)])
    case _ => Ok(head)
  }

  /** `_get_job_text_for_matching(job)`. */
  function JobText(job: Fields): Result<string>
  {
    match JobTextParts(job)
    case Err(e) => Err(e)
    case Ok(parts) => JoinParts(parts)
  }

  // ---- What `filter(None, parts)` keeps ----

  /** The positions of the truthy parts, in order. */
  function TruthyAt(parts: seq<Json>): (r: seq<nat>)
    ensures |r| <= |parts|
  {
    if parts == [] then []
    else TruthyAt(parts[..|parts| - 1]) + if Truthy(parts[|parts| - 1]) then [|parts| - 1] else []
  }

  /**
   * `ss` are the strings of `parts` at the strictly increasing positions `at`,
   * and a position is among them exactly when its part is truthy.
   */
  predicate Selects(parts: seq<Json>, ss: seq<string>, at: seq<nat>)
  {
    && |at| == |ss|
    && (forall k | 0 <= k < |at| :: at[k] < |parts| && parts[at[k]] == JStr(ss[k]))
    && (forall k, l | 0 <= k < l < |at| :: at[k] < at[l])
    && (forall i | 0 <= i < |parts| :: Truthy(parts[i]) <==> i in at)
  }

  /** The filter keeps every truthy part, in order, and nothing else. */
  lemma {:induction false} TruthyStringsOrder(parts: seq<Json>)
    requires TruthyStrings(parts).Ok?
    ensures Selects(parts, TruthyStrings(parts).value, TruthyAt(parts))
  {
    if parts != [] {
      var init := parts[..|parts| - 1];
      var p := parts[|parts| - 1];
      assert parts == init + [p];
      TruthyStringsOrder(init);
      SelectsSnoc(init, TruthyStrings(init).value, TruthyAt(init), p);
    }
  }

  lemma SelectsSnoc(parts: seq<Json>, ss: seq<string>, at: seq<nat>, p: Json)
    requires Selects(parts, ss, at)
    requires p.JStr? || !Truthy(p)
    ensures Selects(parts + [p], if Truthy(p) then ss + [p.s] else ss, if Truthy(p) then at + [|parts|] else at)
  {
    var n := |parts|;
    var ps := parts + [p];
    var ss' := if Truthy(p) then ss + [p.s] else ss;
    var at' := if Truthy(p) then at + [n] else at;
    assert n !in at;
    forall k | 0 <= k < |at'|
      ensures at'[k] < |ps| && ps[at'[k]] == JStr(ss'[k])
    {
      if k < |at| { assert at'[k] == at[k] && ss'[k] == ss[k] && ps[at[k]] == parts[at[k]]; }
    }
    forall k, l | 0 <= k < l < |at'|
      ensures at'[k] < at'[l]
    {
      if l < |at| { assert at'[k] == at[k] && at'[l] == at[l]; }
    }
    forall i | 0 <= i < |ps|
      ensures Truthy(ps[i]) <==> i in at'
    {
      if i < n { assert ps[i] == parts[i]; }
    }
  }

  /**
   * `' '.join(filter(None, parts))` fails exactly when a truthy part is not a
   * string; otherwise it is the truthy parts, in order, joined with single spaces.
   */
  lemma {:induction false} JoinPartsSpec(parts: seq<Json>)
    ensures JoinParts(parts).Err? <==> exists i | 0 <= i < |parts| :: Truthy(parts[i]) && !parts[i].JStr?
    ensures JoinParts(parts).Ok? ==>
      exists ss | Selects(parts, ss, TruthyAt(parts)) :: JoinParts(parts).value == Join(ss, " ")
  {
    if JoinParts(parts).Ok? {
      TruthyStringsOrder(parts);
      var ss := TruthyStrings(parts).value;
      assert Selects(parts, ss, TruthyAt(parts)) && JoinParts(parts).value == Join(ss, " ");
    }
  }

  /** A list of strings as JSON values. */
  function Strs(ss: seq<string>): (r: seq<Json>)
    ensures |r| == |ss| && forall i | 0 <= i < |ss| :: r[i] == JStr(ss[i])
  {
    seq(|ss|, i requires 0 <= i < |ss| => JStr(ss[i]))
  }

  /** The non-empty strings of `ss`, in order. */
  function NonEmpty(ss: seq<string>): (r: seq<string>)
    ensures forall i | 0 <= i < |r| :: r[i] != ""
  {
    if ss == [] then [] else (if ss[0] == "" then [] else [ss[0]]) + NonEmpty(ss[1..])
  }

  lemma {:induction false} NonEmptySnoc(ss: seq<string>, s: string)
    ensures NonEmpty(ss + [s]) == NonEmpty(ss) + if s == "" then [] else [s]
  {
    if ss == [] {
      assert [] + [s] == [s];
      assert [s][1..] == [];
    } else {
      assert (ss + [s])[1..] == ss[1..] + [s];
      NonEmptySnoc(ss[1..], s);
    }
  }

  /** On strings, the filter keeps the non-empty ones. */
  lemma {:induction false} TruthyStrs(ss: seq<string>)
    ensures TruthyStrings(Strs(ss)) == Ok(NonEmpty(ss))
  {
    if ss != [] {
      var init := ss[..|ss| - 1];
      var s := ss[|ss| - 1];
      var xs := Strs(ss);
      assert xs[..|xs| - 1] == Strs(init);
      assert xs[|xs| - 1] == JStr(s);
      assert ss == init + [s];
      TruthyStrs(init);
      NonEmptySnoc(init, s);
      if s == "" {
        assert NonEmpty(init) + [] == NonEmpty(init);
      }
    }
  }

  lemma {:induction false} JoinSnoc(ss: seq<string>, s: string, sep: string)
    requires ss != []
    ensures Join(ss + [s], sep) == Join(ss, sep) + sep + s
  {
    if |ss| == 1 {
      assert (ss + [s])[1..] == [s];
    } else {
      assert (ss + [s])[1..] == ss[1..] + [s];
      JoinSnoc(ss[1..], s, sep);
    }
  }

  /** `' '.join(skills)` on strings is the strings joined with single spaces. */
  lemma {:induction false} JoinSkillsStrs(skills: seq<string>)
    ensures JoinSkills(Strs(skills)) == Ok(Join(skills, " "))
  {
    if skills != [] {
      var init := skills[..|skills| - 1];
      var s := skills[|skills| - 1];
      assert Strs(skills)[..|skills| - 1] == Strs(init);
      assert skills == init + [s];
      JoinSkillsStrs(init);
      if init != [] {
        JoinSnoc(init, s, " ");
      }
    }
  }

  /**
   * With a string title and description and a list of string skills, the job's
   * text is the non-empty ones of title, description and the space-joined
   * skills, joined with single spaces.
   */
  lemma {:induction false} JobTextListed(job: Fields, title: string, description: string, skills: seq<string>)
    requires GetOr(job, "title", JStr("")) == JStr(title)
    requires GetOr(job, "description", JStr("")) == JStr(description)
    requires GetOr(job, "skills", JArr([])) == JArr(Strs(skills))
    ensures JobText(job) == Ok(Join(NonEmpty([title, description, Join(skills, " ")]), " "))
  {
    var ts := [title, description, Join(skills, " ")];
    JoinSkillsStrs(skills);
    assert Strs(ts) == [JStr(title), JStr(description), JStr(Join(skills, " "))];
    assert [JStr(title), JStr(description)] + [JStr(Join(skills, " "))] == Strs(ts);
    assert JobTextParts(job) == Ok(Strs(ts));
    TruthyStrs(ts);
  }

  /** A string under "skills" is taken as it is. */
  lemma {:induction false} JobTextWritten(job: Fields, title: string, description: string, skills: string)
    requires GetOr(job, "title", JStr("")) == JStr(title)
    requires GetOr(job, "description", JStr("")) == JStr(description)
    requires GetOr(job, "skills", JArr([])) == JStr(skills)
    ensures JobText(job) == Ok(Join(NonEmpty([title, description, skills]), " "))
  {
    var ts := [title, description, skills];
    assert Strs(ts) == [JStr(title), JStr(description), JStr(skills)];
    assert [JStr(title), JStr(description)] + [JStr(skills)] == Strs(ts);
    assert JobTextParts(job) == Ok(Strs(ts));
    TruthyStrs(ts);
  }

  /** "skills" that are neither a list nor a string add nothing. */
  lemma {:induction false} JobTextUnlisted(job: Fields, title: string, description: string)
    requires GetOr(job, "title", JStr("")) == JStr(title)
    requires GetOr(job, "description", JStr("")) == JStr(description)
    requires !GetOr(job, "skills", JArr([])).JArr? && !GetOr(job, "skills", JArr([])).JStr?
    ensures JobText(job) == Ok(Join(NonEmpty([title, description]), " "))
  {
    var ts := [title, description];
    assert Strs(ts) == [JStr(title), JStr(description)];
    assert JobTextParts(job) == Ok(Strs(ts));
    TruthyStrs(ts);
  }

  /**
   * The job's text fails (TypeError) exactly when the title or the description
   * is a truthy non-string, or "skills" is a list with a non-string entry.
   */
  lemma {:induction false} JobTextFails(job: Fields)
    ensures var t := GetOr(job, "title", JStr(""));
      var d := GetOr(job, "description", JStr(""));
      var sk := GetOr(job, "skills", JArr([]));
      JobText(job).Err? <==>
        ((Truthy(t) && !t.JStr?) || (Truthy(d) && !d.JStr?)
         || (sk.JArr? && exists i | 0 <= i < |sk.items| :: !sk.items[i].JStr?))
    ensures JobText(job).Err? ==> JobText(job).error == TypeError
  {
    var t := GetOr(job, "title", JStr(""));
    var d := GetOr(job, "description", JStr(""));
    var sk := GetOr(job, "skills", JArr([]));
    match JobTextParts(job)
    case Err(e) =>
      assert sk.JArr? && JoinSkills(sk.items).Err?;
    case Ok(parts) =>
      assert parts[0] == t && parts[1] == d;
      assert |parts| == 3 ==> parts[2].JStr?;
  }

  /**
   * `_get_profile_text_for_matching`: the profile's (or its dict "data"'s) bio
   * and description, then each dict repository's description and language,
   * filtered for truthy parts and joined with single spaces; it fails where
   * iterating the repositories fails or a truthy part is not a string.
   */
  lemma {:induction false} ProfileTextSpec(profile: Fields)
    ensures var data := Get(profile, "data");
      !(data.Some? && data.value.JObj?) ==>
        ProfileTextParts(profile) == Ok([GetOr(profile, "bio", JStr("")), GetOr(profile, "description", JStr(""))])
    ensures var data := Get(profile, "data");
      data.Some? && data.value.JObj? ==>
        var fs := data.value.fields;
        var repos := Iterate(GetOr(fs, "repositories", JArr([])));
        ProfileTextParts(profile) ==
          if repos.Err? then Err(repos.error)
          else Ok([GetOr(fs, "bio", JStr("")), GetOr(fs, "description", JStr(""))] + RepoParts(repos.value))
    ensures var parts := ProfileTextParts(profile);
      ProfileText(profile).Err? <==>
        (parts.Err? || exists i | 0 <= i < |parts.value| :: Truthy(parts.value[i]) && !parts.value[i].JStr?)
    ensures var parts := ProfileTextParts(profile);
      ProfileText(profile).Ok? ==>
        parts.Ok? && exists ss | Selects(parts.value, ss, TruthyAt(parts.value)) :: ProfileText(profile).value == Join(ss, " ")
  {
    var parts := ProfileTextParts(profile);
    if parts.Ok? {
      JoinPartsSpec(parts.value);
    }
  }

  /** The description and language of every repository that is a dict, in order. */
  function RepoParts(repos: seq<Json>): (r: seq<Json>)
    ensures |r| <= 2 * |repos|
  {
    if repos == [] then []
    else
      var rest := RepoParts(repos[..|repos| - 1]);
      var repo := repos[|repos| - 1];
      if repo.JObj? then rest + [GetOr(repo.fields, "description", JStr("")), GetOr(repo.fields, "language", JStr(""))]
      else rest
  }

  /** The parts of `_get_profile_text_for_matching`. */
  function ProfileTextParts(profile: Fields): Result<seq<Json>>
  {
    match Get(profile, "data")
    case Some(JObj(data)) =>
      (match Iterate(GetOr(data, "repositories", JArr([])))
       case Err(e) => Err(e)
       case Ok(repos) =>
         Ok([GetOr(data, "bio", JStr("")), GetOr(data, "description", JStr(""))] + RepoParts(repos)))
    case _ => Ok([GetOr(profile, "bio", JStr("")), GetOr(profile, "description", JStr(""))])
  }

  /** `_get_profile_text_for_matching(profile)`. */
  function ProfileText(profile: Fields): Result<string>
  {
    match ProfileTextParts(profile)
    case Err(e) => Err(e)
    case Ok(parts) => JoinParts(parts)
  }

  /** `_get_profile_text_for_matching`, appending the parts one by one. */
  method GetProfileText(profile: Fields) returns (r: Result<string>)
    ensures r == ProfileText(profile)
  {
    var textParts: seq<Json> := [];
    var data := Get(profile, "data");
    if data.Some? && data.value.JObj? {
      var fs := data.value.fields;
      textParts := textParts + [GetOr(fs, "bio", JStr(""))];
      textParts := textParts + [GetOr(fs, "description", JStr(""))];
      var repos := Iterate(GetOr(fs, "repositories", JArr([])));
      if repos.Err? {
        assert ProfileTextParts(profile) == Err(repos.error);
        return Err(repos.error);
      }
      var head := textParts;
      assert head == [GetOr(fs, "bio", JStr("")), GetOr(fs, "description", JStr(""))];
      for i := 0 to |repos.value|
        invariant textParts == head + RepoParts(repos.value[..i])
      {
        assert repos.value[..i + 1][..i] == repos.value[..i];
        var repo := repos.value[i];
        if repo.JObj? {
          textParts := textParts + [GetOr(repo.fields, "description", JStr(""))];
          textParts := textParts + [GetOr(repo.fields, "language", JStr(""))];
        }
      }
      assert repos.value[..|repos.value|] == repos.value;
      assert ProfileTextParts(profile) == Ok(textParts);
    } else {
      textParts := textParts + [GetOr(profile, "bio", JStr(""))];
      textParts := textParts + [GetOr(profile, "description", JStr(""))];
      assert textParts == [GetOr(profile, "bio", JStr("")), GetOr(profile, "description", JStr(""))];
      assert ProfileTextParts(profile) == Ok(textParts);
    }
    r := JoinParts(textParts);
  }

  /** The "skills" list under a dict-valued "data" entry, or nothing. */
  function DataSkills(profile: Fields): seq<Json>
  {
    match Get(profile, "data")
    case Some(JObj(data)) =>
      (match Get(data, "skills")
       case Some(JArr(xs)) => xs
       case _ => [])
    case _ => []
  }

  /**
   * `_extract_skills_from_profile(profile)`: a top-level "skills" list as it
   * is, else a non-empty `data.skills` list, else the skills extracted from
   * the profile's text.
   */
  function ProfileSkills(profile: Fields, extract: Extractor): (r: Result<seq<Json>>)
    ensures Get(profile, "skills").Some? && Get(profile, "skills").value.JArr? ==> r == Ok(Get(profile, "skills").value.items)
    ensures !(Get(profile, "skills").Some? && Get(profile, "skills").value.JArr?) && DataSkills(profile) != [] ==> r == Ok(DataSkills(profile))
  {
    match Get(profile, "skills")
    case Some(JArr(xs)) => Ok(xs)
    case _ =>
      var fromData := DataSkills(profile);
      if fromData != [] then Ok(fromData)
      else
        match ProfileText(profile)
        case Err(e) => Err(e)
        case Ok(t) => extract(t)
  }

  /** `_extract_skills_from_job(job)`: a "skills" list as it is, else the skills extracted from the job's text. */
  function JobSkills(job: Fields, extract: Extractor): (r: Result<seq<Json>>)
    ensures Get(job, "skills").Some? && Get(job, "skills").value.JArr? ==> r == Ok(Get(job, "skills").value.items)
  {
    match Get(job, "skills")
    case Some(JArr(xs)) => Ok(xs)
    case _ =>
      match JobText(job)
      case Err(e) => Err(e)
      case Ok(t) => extract(t)
  }

  /** `calculate_match_score(profile, job)`. */
  function CalculateMatchScore(profile: Fields, job: Fields, extract: Extractor, similarity: Similarity): EngineScore
  {
    var ps := ProfileSkills(profile, extract);
    var pt := ProfileText(profile);
    var jt := JobText(job);
    if ps.Err? || pt.Err? || jt.Err? then FallbackScore
    else ScoreWith(KeySet(ps.value), |ps.value|, JobSkills(job, extract), similarity(pt.value, jt.value))
  }

  /** Matched and missing skills split the job's skill set, and the overlap is a fraction. */
  lemma {:induction false} ScoreFacts(profileKeys: Result<set<Json>>, profileCount: nat, jobSkills: Result<seq<Json>>, similarity: Result<Option<real>>)
    requires ScoreWith(profileKeys, profileCount, jobSkills, similarity).details.Some?
    ensures var r := ScoreWith(profileKeys, profileCount, jobSkills, similarity);
      && jobSkills.Ok? && KeySet(jobSkills.value).Ok? && profileKeys.Ok?
      && r.skillsMatched == profileKeys.value * KeySet(jobSkills.value).value
      && r.skillsMatched * r.skillsMissing == {}
      && r.skillsMatched + r.skillsMissing == KeySet(jobSkills.value).value
      && 0.0 <= r.skillMatch <= 1.0
      && (jobSkills.value == [] ==> r.skillMatch == 0.0)
  {
    ScoreShape(profileKeys, profileCount, jobSkills, similarity);
    var js := jobSkills.value;
    var jobKeys := KeySet(js).value;
    var matched := profileKeys.value * jobKeys;
    SplitBy(profileKeys.value, jobKeys);
    KeySetSize(js);
    SubsetCard(matched, jobKeys);
    RatioFraction(|matched|, |js|);
  }

  /** The fields of a detailed score, one by one. */
  lemma ScoreShape(profileKeys: Result<set<Json>>, profileCount: nat, jobSkills: Result<seq<Json>>, similarity: Result<Option<real>>)
    requires ScoreWith(profileKeys, profileCount, jobSkills, similarity).details.Some?
    ensures var r := ScoreWith(profileKeys, profileCount, jobSkills, similarity);
      && jobSkills.Ok? && KeySet(jobSkills.value).Ok? && profileKeys.Ok?
      && r.skillsMatched == profileKeys.value * KeySet(jobSkills.value).value
      && r.skillsMissing == KeySet(jobSkills.value).value - profileKeys.value
      && r.skillMatch == Ratio(|r.skillsMatched|, |jobSkills.value|)
  {
  }

  /** The common part and the rest of `b` split `b`. */
  lemma SplitBy<T>(a: set<T>, b: set<T>)
    ensures (a * b) * (b - a) == {} && (a * b) + (b - a) == b
  {
  }

  lemma {:induction false} RatioFraction(n: nat, d: nat)
    requires n <= d
    ensures 0.0 <= Ratio(n, d) <= 1.0
    ensures d == 0 ==> Ratio(n, d) == 0.0
  {
    if d > 0 {
      assert n as real <= d as real;
    }
  }

  /** With a similarity in [0, 1] the overall score is in [0, 1] too; the fallback is 0.5 throughout. */
  lemma {:induction false} OverallFraction(profile: Fields, job: Fields, extract: Extractor, similarity: Similarity)
    requires forall a: string, b: string | similarity(a, b).Ok? && similarity(a, b).value.Some? ::
      0.0 <= similarity(a, b).value.value <= 1.0
    ensures var r := CalculateMatchScore(profile, job, extract, similarity);
      0.0 <= r.overallScore <= 1.0 && 0.0 <= r.vectorSimilarity <= 1.0
  {
    var r := CalculateMatchScore(profile, job, extract, similarity);
    if r.details.Some? {
      var ps := ProfileSkills(profile, extract);
      var sim := similarity(ProfileText(profile).value, JobText(job).value);
      ScoreFacts(KeySet(ps.value), |ps.value|, JobSkills(job, extract), sim);
    }
  }

  /**
   * `calculate_match_score` answers the fallback exactly when one of its steps
   * raises: extracting either skill list, building either text, putting either
   * list in a set, or embedding and comparing the texts. Otherwise the score is
   * the set overlap blended with the similarity (0.5 without embeddings).
   */
  lemma {:induction false} CalculateMatchScoreSpec(profile: Fields, job: Fields, extract: Extractor, similarity: Similarity)
    ensures var r := CalculateMatchScore(profile, job, extract, similarity);
      var ps := ProfileSkills(profile, extract);
      var pt := ProfileText(profile);
      var jt := JobText(job);
      var js := JobSkills(job, extract);
      (r == FallbackScore) <==>
        (ps.Err? || pt.Err? || jt.Err? || js.Err? || KeySet(ps.value).Err? || KeySet(js.value).Err?
         || similarity(pt.value, jt.value).Err?)
    ensures var r := CalculateMatchScore(profile, job, extract, similarity);
      var ps := ProfileSkills(profile, extract);
      var js := JobSkills(job, extract);
      r != FallbackScore ==>
        && ps.Ok? && js.Ok? && KeySet(ps.value).Ok? && KeySet(js.value).Ok?
        && r.skillsMatched == KeySet(ps.value).value * KeySet(js.value).value
        && r.skillsMissing == KeySet(js.value).value - KeySet(ps.value).value
        && r.skillMatch == Ratio(|r.skillsMatched|, |js.value|)
        && r.overallScore == SkillOverlapWeight * r.skillMatch + VectorSimilarityWeight * r.vectorSimilarity
        && r.experienceMatch == ExperienceMatch
        && r.details == Some(Details(|ps.value|, |js.value|, |r.skillsMatched|))
    ensures var r := CalculateMatchScore(profile, job, extract, similarity);
      r != FallbackScore ==>
        var sim := similarity(ProfileText(profile).value, JobText(job).value).value;
        r.vectorSimilarity == if sim.None? then 0.5 else sim.value
  {
    var r := CalculateMatchScore(profile, job, extract, similarity);
    var ps := ProfileSkills(profile, extract);
    var pt := ProfileText(profile);
    var jt := JobText(job);
    if ps.Ok? && pt.Ok? && jt.Ok? {
      var js := JobSkills(job, extract);
      var sim := similarity(pt.value, jt.value);
      if r.details.Some? {
        ScoreShape(KeySet(ps.value), |ps.value|, js, sim);
      }
    }
  }

  // ---- Matching a profile against a stored job ----

  datatype JobMatch = JobMatch(
    id: Json,
    title: Json,
    company: Json,
    description: Json,
    skills: Json,
    vectorSimilarity: real,
    skillOverlap: set<Json>,
    skillOverlapPct: real,
    combinedScore: real)

  /**
   * `_match_profile_to_job(profile_skills, profile_embedding, job)`;
   * `cosine` is the similarity of the two embeddings, `None` when either is empty.
   */
  function MatchProfileToJob(profileSkills: seq<Json>, job: Fields, cosine: Result<Option<real>>): (r: Result<JobMatch>)
    ensures r.Ok? && cosine.Ok? && cosine.value.None? ==> r.value.vectorSimilarity == 0.0
    ensures r.Ok? ==> r.value.combinedScore == Combined(r.value.skillOverlapPct, r.value.vectorSimilarity)
  {
    var jobSkills := GetOr(job, "skills", JArr([]));
    match KeySet(profileSkills)
    case Err(e) => Err(e)
    case Ok(pk) =>
      match Iterate(jobSkills)
      case Err(e) => Err(e)
      case Ok(js) =>
        match KeySet(js)
        case Err(e) => Err(e)
        case Ok(jk) =>
          var matched := pk * jk;
          var pct := Ratio(|matched|, |js|);
          match cosine
          case Err(e) => Err(e)
          case Ok(c) =>
            var vs := if c.None? then 0.0 else c.value;
            Ok(JobMatch(GetOr(job, "id", JNull), GetOr(job, "title", JStr("")), GetOr(job, "company", JStr("")),
              GetOr(job, "description", JStr("")), jobSkills, vs, matched, pct, Combined(pct, vs)))
  }

  /**
   * `_match_profile_to_job` fails exactly when a set of skills cannot be built or the
   * similarity fails; otherwise the overlap is set(P) ∩ set(J), its share is
   * |overlap| / len(J) (0 for no job skills) and lies in [0, 1], and the combined score
   * blends that share with the similarity, 0 when either embedding is missing.
   */
  lemma {:induction false} MatchProfileToJobSpec(profileSkills: seq<Json>, job: Fields, cosine: Result<Option<real>>)
    ensures var jobSkills := GetOr(job, "skills", JArr([]));
      var r := MatchProfileToJob(profileSkills, job, cosine);
      r.Ok? <==> (KeySet(profileSkills).Ok? && Iterate(jobSkills).Ok?
                  && KeySet(Iterate(jobSkills).value).Ok? && cosine.Ok?)
    ensures var jobSkills := GetOr(job, "skills", JArr([]));
      var r := MatchProfileToJob(profileSkills, job, cosine);
      r.Ok? ==>
        && r.value.skillOverlap == KeySet(profileSkills).value * KeySet(Iterate(jobSkills).value).value
        && r.value.skillOverlapPct == Ratio(|r.value.skillOverlap|, |Iterate(jobSkills).value|)
        && 0.0 <= r.value.skillOverlapPct <= 1.0
        && (Iterate(jobSkills).value == [] ==> r.value.skillOverlapPct == 0.0)
        && r.value.vectorSimilarity == (if cosine.value.None? then 0.0 else cosine.value.value)
        && r.value.combinedScore == Combined(r.value.skillOverlapPct, r.value.vectorSimilarity)
  {
    var r := MatchProfileToJob(profileSkills, job, cosine);
    if r.Ok? {
      var js := Iterate(GetOr(job, "skills", JArr([]))).value;
      var jk := KeySet(js).value;
      var matched := KeySet(profileSkills).value * jk;
      KeySetSize(js);
      SubsetCard(matched, jk);
      RatioFraction(|matched|, |js|);
    }
  }

  /** The overlap share counts each shared skill once but divides by the job list's length, duplicates included. */
  lemma {:induction false} OverlapCountsDuplicates()
    ensures var job := [("skills", JArr([JStr("go"), JStr("go")]))];
      MatchProfileToJob([JStr("go")], job, Ok(None)).Ok?
      && MatchProfileToJob([JStr("go")], job, Ok(None)).value.skillOverlapPct == 0.5
  {
    var job := [("skills", JArr([JStr("go"), JStr("go")]))];
    assert Get(job, "skills") == Some(JArr([JStr("go"), JStr("go")]));
    var js := [JStr("go"), JStr("go")];
    var one := [JStr("go")];
    assert one[..0] == [];
    assert KeySet(one[..0]) == Ok({});
    assert Canon(one[0]) == JStr("go");
    assert {} + {JStr("go")} == {JStr("go")};
    assert KeySet(one) == Ok({JStr("go")});
    assert js[..1] == one;
    assert KeySet(js) == Ok({JStr("go")});
    assert KeySet(one) == Ok({JStr("go")});
  }

  // ---- Combining the profiles of several platforms ----

  datatype CombinedProfile = CombinedProfile(
    baseId: Json,
    name: Json,
    skills: set<Json>,
    repositories: seq<Json>,
    projects: seq<Json>,
    experience: seq<Json>,
    education: seq<Json>,
    platforms: seq<Json>,
    certifications: seq<Json>,
    problemSolving: Option<Json>,
    submissions: Option<Json>)

  /** `profile.get('platform', 'unknown')`. */
  function PlatformOf(profile: Fields): Json
  {
    GetOr(profile, "platform", JStr("unknown"))
  }

  /** `profile.get('data', {}).get(key, default)`: a "data" entry that is not a dict has no `get`. */
  function DataField(profile: Fields, key: string, default: Json): (r: Result<Json>)
    ensures r.Err? ==> r.error == AttributeError
  {
    match Get(profile, "data")
    case None => Ok(default)
    case Some(JObj(data)) => Ok(GetOr(data, key, default))
    case Some(_) => Err(AttributeError)
  }

  /** The items under `data[key]` (default `[]`) that `extend` appends; nothing when reading them fails. */
  function DataList(profile: Fields, key: string): seq<Json>
  {
    match DataField(profile, key, JArr([]))
    case Err(_) => []
    case Ok(v) =>
      match Iterate(v)
      case Err(_) => []
      case Ok(ys) => ys
  }

  /** `xs.extend(profile.get('data', {}).get(key, []))`. */
  function ExtendFrom(xs: seq<Json>, profile: Fields, key: string): (r: Result<seq<Json>>)
    ensures r.Ok? ==> r.value == xs + DataList(profile, key)
    ensures r.Ok? ==> |xs| <= |r.value| && r.value[..|xs|] == xs
  {
    match DataField(profile, key, JArr([]))
    case Err(e) => Err(e)
    case Ok(v) =>
      match Iterate(v)
      case Err(e) => Err(e)
      case Ok(ys) =>
        assert (xs + ys)[..|xs|] == xs;
        Ok(xs + ys)
  }

  /** The skill set one profile adds, or the exception collecting it raises. */
  function SkillsOf(profile: Fields, extract: Extractor): Result<set<Json>>
  {
    match ProfileSkills(profile, extract)
    case Err(e) => Err(e)
    case Ok(ps) => KeySet(ps)
  }

  /** The platform-specific step for a LinkedIn profile: experience, education, certifications. */
  function AddLinkedIn(c: CombinedProfile, profile: Fields): (r: Result<CombinedProfile>)
    ensures r.Ok? ==> r.value == c.(experience := r.value.experience, education := r.value.education,
                                    certifications := r.value.certifications)
    ensures r.Ok? ==> r.value.experience == c.experience + DataList(profile, "experience")
    ensures r.Ok? ==> r.value.education == c.education + DataList(profile, "education")
    ensures r.Ok? ==> r.value.certifications == c.certifications + DataList(profile, "certifications")
  {
    match ExtendFrom(c.experience, profile, "experience")
    case Err(e) => Err(e)
    case Ok(ex) =>
      match ExtendFrom(c.education, profile, "education")
      case Err(e) => Err(e)
      case Ok(ed) =>
        match ExtendFrom(c.certifications, profile, "certifications")
        case Err(e) => Err(e)
        case Ok(ce) => Ok(c.(experience := ex, education := ed, certifications := ce))
  }

  /** The platform-specific step for a LeetCode profile: truthy solved problems and submissions replace earlier ones. */
  function AddLeetCode(c: CombinedProfile, profile: Fields): (r: Result<CombinedProfile>)
    ensures r.Ok? ==> r.value == c.(problemSolving := r.value.problemSolving, submissions := r.value.submissions)
  {
    match DataField(profile, "solved_problems", JObj([]))
    case Err(e) => Err(e)
    case Ok(solved) =>
      match DataField(profile, "recent_submissions", JArr([]))
      case Err(e) => Err(e)
      case Ok(subs) =>
        Ok(c.(problemSolving := if Truthy(solved) then Some(solved) else c.problemSolving,
              submissions := if Truthy(subs) then Some(subs) else c.submissions))
  }

  /** The items of `data[key]` when the profile is on `platform`, nothing otherwise. */
  function OnlyOn(profile: Fields, platform: string, key: string): seq<Json>
  {
    if PlatformOf(profile) == JStr(platform) then DataList(profile, key) else []
  }

  /** One pass of the loop of `combine_profiles`. */
  function AddProfile(c: CombinedProfile, profile: Fields, extract: Extractor): (r: Result<CombinedProfile>)
    ensures r.Ok? ==> r.value.platforms == c.platforms + [PlatformOf(profile)]
    ensures r.Ok? ==> SkillsOf(profile, extract).Ok? && r.value.skills == c.skills + SkillsOf(profile, extract).value
    ensures r.Ok? ==> r.value.repositories == c.repositories + OnlyOn(profile, "github", "repositories")
    ensures r.Ok? ==> r.value.experience == c.experience + OnlyOn(profile, "linkedin", "experience")
    ensures r.Ok? ==> r.value.education == c.education + OnlyOn(profile, "linkedin", "education")
    ensures r.Ok? ==> r.value.certifications == c.certifications + OnlyOn(profile, "linkedin", "certifications")
    ensures r.Ok? ==> r.value.projects == c.projects + DataList(profile, "projects")
    ensures r.Ok? ==> r.value.baseId == c.baseId && r.value.name == c.name
  {
    var platform := PlatformOf(profile);
    var c1 := c.(platforms := c.platforms + [platform]);
    match SkillsOf(profile, extract)
    case Err(e) => Err(e)
    case Ok(ks) =>
      var c2 := c1.(skills := c1.skills + ks);
      var c3 :=
        if platform == JStr("github") then
          (match ExtendFrom(c2.repositories, profile, "repositories")
           case Err(e) => Err(e)
           case Ok(rs) => Ok(c2.(repositories := rs)))
        else if platform == JStr("linkedin") then AddLinkedIn(c2, profile)
        else if platform == JStr("leetcode") then AddLeetCode(c2, profile)
        else Ok(c2);
      match c3
      case Err(e) => Err(e)
      case Ok(c4) =>
        match ExtendFrom(c4.projects, profile, "projects")
        case Err(e) => Err(e)
        case Ok(ps) => Ok(c4.(projects := ps))
  }

  function CombineFrom(c: CombinedProfile, profiles: seq<Fields>, extract: Extractor): Result<CombinedProfile>
  {
    if profiles == [] then Ok(c)
    else
      match CombineFrom(c, profiles[..|profiles| - 1], extract)
      case Err(e) => Err(e)
      case Ok(acc) => AddProfile(acc, profiles[|profiles| - 1], extract)
  }

  /** The combined profile before the loop: the first profile's id and name, nothing else. */
  function Initial(first: Fields): CombinedProfile
  {
    CombinedProfile(GetOr(first, "id", JStr("")), GetOr(first, "name", JStr("")), {}, [], [], [], [], [], [], None, None)
  }

  /** `combine_profiles(profiles)`; `None` is the empty dict returned for no profiles. */
  function CombineProfiles(profiles: seq<Fields>, extract: Extractor): (r: Result<Option<CombinedProfile>>)
    ensures profiles == [] <==> r == Ok(None)
  {
    if profiles == [] then Ok(None)
    else
      match CombineFrom(Initial(profiles[0]), profiles, extract)
      case Err(e) => Err(e)
      case Ok(c) => Ok(Some(c))
  }

  function PlatformsOf(profiles: seq<Fields>): (r: seq<Json>)
    ensures |r| == |profiles| && forall i | 0 <= i < |profiles| :: r[i] == PlatformOf(profiles[i])
  {
    if profiles == [] then [] else PlatformsOf(profiles[..|profiles| - 1]) + [PlatformOf(profiles[|profiles| - 1])]
  }

  /** The union of the skill sets of the profiles whose skills can be collected. */
  function SkillUnion(profiles: seq<Fields>, extract: Extractor): set<Json>
  {
    if profiles == [] then {}
    else
      var s := SkillsOf(profiles[|profiles| - 1], extract);
      SkillUnion(profiles[..|profiles| - 1], extract) + (if s.Ok? then s.value else {})
  }

  /** The items of `data[key]` over the profiles on `platform`, concatenated in profile order. */
  function GatherOn(profiles: seq<Fields>, platform: string, key: string): seq<Json>
  {
    if profiles == [] then []
    else GatherOn(profiles[..|profiles| - 1], platform, key) + OnlyOn(profiles[|profiles| - 1], platform, key)
  }

  /** The items of `data[key]` over all profiles, concatenated in profile order. */
  function GatherAll(profiles: seq<Fields>, key: string): seq<Json>
  {
    if profiles == [] then []
    else GatherAll(profiles[..|profiles| - 1], key) + DataList(profiles[|profiles| - 1], key)
  }

  predicate NoneOn(profiles: seq<Fields>, platform: string)
  {
    forall i | 0 <= i < |profiles| :: PlatformOf(profiles[i]) != JStr(platform)
  }

  /** Without a profile on the platform, nothing is gathered from it. */
  lemma {:induction false} GatherNone(profiles: seq<Fields>, platform: string, key: string)
    requires NoneOn(profiles, platform)
    ensures GatherOn(profiles, platform, key) == []
  {
    if profiles != [] {
      var init := profiles[..|profiles| - 1];
      assert forall i | 0 <= i < |init| :: init[i] == profiles[i];
      GatherNone(init, platform, key);
    }
  }

  /**
   * What the loop of `combine_profiles` promises: one platform per profile in
   * order, the union of their skill sets, and the id and name it started with.
   */
  lemma {:induction false} CombineFacts(c: CombinedProfile, profiles: seq<Fields>, extract: Extractor)
    requires CombineFrom(c, profiles, extract).Ok?
    ensures var r := CombineFrom(c, profiles, extract).value;
      && r.platforms == c.platforms + PlatformsOf(profiles)
      && r.skills == c.skills + SkillUnion(profiles, extract)
      && r.baseId == c.baseId && r.name == c.name
  {
    if profiles != [] {
      var init := profiles[..|profiles| - 1];
      CombineFacts(c, init, extract);
    }
  }

  /**
   * The lists the loop of `combine_profiles` extends: the projects of every
   * profile, repositories only from GitHub profiles and experience, education
   * and certifications only from LinkedIn profiles, each in profile order.
   */
  lemma CombineLists(c: CombinedProfile, profiles: seq<Fields>, extract: Extractor)
    requires CombineFrom(c, profiles, extract).Ok?
    ensures var r := CombineFrom(c, profiles, extract).value;
      && r.projects == c.projects + GatherAll(profiles, "projects")
      && r.repositories == c.repositories + GatherOn(profiles, "github", "repositories")
      && r.experience == c.experience + GatherOn(profiles, "linkedin", "experience")
      && r.education == c.education + GatherOn(profiles, "linkedin", "education")
      && r.certifications == c.certifications + GatherOn(profiles, "linkedin", "certifications")
  {
    CombineProjects(c, profiles, extract);
    CombineOn(c, profiles, extract);
  }

  lemma {:induction false} CombineProjects(c: CombinedProfile, profiles: seq<Fields>, extract: Extractor)
    requires CombineFrom(c, profiles, extract).Ok?
    ensures CombineFrom(c, profiles, extract).value.projects == c.projects + GatherAll(profiles, "projects")
  {
    if profiles != [] {
      var init, last := profiles[..|profiles| - 1], profiles[|profiles| - 1];
      CombineProjects(c, init, extract);
      var acc := CombineFrom(c, init, extract).value;
      var r := AddProfile(acc, last, extract);
      assert CombineFrom(c, profiles, extract) == r;
      AppendAssoc(c.projects, GatherAll(init, "projects"), DataList(last, "projects"));
    }
  }

  lemma {:induction false} CombineOn(c: CombinedProfile, profiles: seq<Fields>, extract: Extractor)
    requires CombineFrom(c, profiles, extract).Ok?
    ensures var r := CombineFrom(c, profiles, extract).value;
      && r.repositories == c.repositories + GatherOn(profiles, "github", "repositories")
      && r.experience == c.experience + GatherOn(profiles, "linkedin", "experience")
      && r.education == c.education + GatherOn(profiles, "linkedin", "education")
      && r.certifications == c.certifications + GatherOn(profiles, "linkedin", "certifications")
  {
    if profiles != [] {
      var init, last := profiles[..|profiles| - 1], profiles[|profiles| - 1];
      CombineOn(c, init, extract);
      var acc := CombineFrom(c, init, extract).value;
      var r := AddProfile(acc, last, extract);
      assert CombineFrom(c, profiles, extract) == r;
      AppendAssoc(c.repositories, GatherOn(init, "github", "repositories"), OnlyOn(last, "github", "repositories"));
      AppendAssoc(c.experience, GatherOn(init, "linkedin", "experience"), OnlyOn(last, "linkedin", "experience"));
      AppendAssoc(c.education, GatherOn(init, "linkedin", "education"), OnlyOn(last, "linkedin", "education"));
      AppendAssoc(c.certifications, GatherOn(init, "linkedin", "certifications"), OnlyOn(last, "linkedin", "certifications"));
    }
  }

  /** What was gathered so far plus one profile's items is what is gathered with that profile. */
  lemma AppendAssoc(start: seq<Json>, gathered: seq<Json>, more: seq<Json>)
    ensures start + gathered + more == start + (gathered + more)
  {
  }

  /**
   * `combine_profiles` as a whole: one platform per profile, the union of the
   * skills, the first profile's id and name, the projects of every profile.
   */
  lemma {:induction false} CombineProfilesFacts(profiles: seq<Fields>, extract: Extractor)
    requires profiles != [] && CombineProfiles(profiles, extract).Ok?
    ensures var r := CombineProfiles(profiles, extract).value.value;
      && r.platforms == PlatformsOf(profiles)
      && r.skills == SkillUnion(profiles, extract)
      && r.baseId == GetOr(profiles[0], "id", JStr("")) && r.name == GetOr(profiles[0], "name", JStr(""))
      && r.projects == GatherAll(profiles, "projects")
  {
    CombineProfilesValue(profiles, extract);
    CombineFacts(Initial(profiles[0]), profiles, extract);
    CombineLists(Initial(profiles[0]), profiles, extract);
  }

  /**
   * `combine_profiles` as a whole: the repositories of the GitHub profiles and the
   * experience, education and certifications of the LinkedIn profiles, in profile order.
   */
  lemma {:induction false} CombineProfilesSources(profiles: seq<Fields>, extract: Extractor)
    requires profiles != [] && CombineProfiles(profiles, extract).Ok?
    ensures var r := CombineProfiles(profiles, extract).value.value;
      && r.repositories == GatherOn(profiles, "github", "repositories")
      && r.experience == GatherOn(profiles, "linkedin", "experience")
      && r.education == GatherOn(profiles, "linkedin", "education")
      && r.certifications == GatherOn(profiles, "linkedin", "certifications")
  {
    var c0 := Initial(profiles[0]);
    CombineProfilesValue(profiles, extract);
    CombineOn(c0, profiles, extract);
    var r := CombineFrom(c0, profiles, extract).value;
    assert r.repositories == [] + GatherOn(profiles, "github", "repositories");
    assert r.experience == [] + GatherOn(profiles, "linkedin", "experience");
    assert r.education == [] + GatherOn(profiles, "linkedin", "education");
    assert r.certifications == [] + GatherOn(profiles, "linkedin", "certifications");
  }

  /** Without a GitHub profile there are no repositories; without a LinkedIn profile no experience, education or certifications. */
  lemma {:induction false} CombineProfilesAbsent(profiles: seq<Fields>, extract: Extractor)
    requires profiles != [] && CombineProfiles(profiles, extract).Ok?
    ensures var r := CombineProfiles(profiles, extract).value.value;
      && (NoneOn(profiles, "github") ==> r.repositories == [])
      && (NoneOn(profiles, "linkedin") ==> r.experience == [] && r.education == [] && r.certifications == [])
  {
    CombineProfilesSources(profiles, extract);
    if NoneOn(profiles, "github") { GatherNone(profiles, "github", "repositories"); }
    if NoneOn(profiles, "linkedin") {
      GatherNone(profiles, "linkedin", "experience");
      GatherNone(profiles, "linkedin", "education");
      GatherNone(profiles, "linkedin", "certifications");
    }
  }

  lemma CombineProfilesValue(profiles: seq<Fields>, extract: Extractor)
    requires profiles != [] && CombineProfiles(profiles, extract).Ok?
    ensures CombineFrom(Initial(profiles[0]), profiles, extract).Ok?
    ensures CombineProfiles(profiles, extract).value.value == CombineFrom(Initial(profiles[0]), profiles, extract).value
  {
  }

  /** `combine_profiles`, by the loop of the source. */
  method CombineProfilesLoop(profiles: seq<Fields>, extract: Extractor) returns (r: Result<Option<CombinedProfile>>)
    ensures r == CombineProfiles(profiles, extract)
  {
    if profiles == [] {
      return Ok(None);
    }
    var c0 := Initial(profiles[0]);
    var c := c0;
    for i := 0 to |profiles|
      invariant CombineFrom(c0, profiles[..i], extract) == Ok(c)
    {
      assert profiles[..i + 1][..i] == profiles[..i];
      var next := AddProfile(c, profiles[i], extract);
      if next.Err? {
        CombineErr(c0, profiles, extract, i + 1);
        return Err(next.error);
      }
      c := next.value;
    }
    assert profiles[..|profiles|] == profiles;
    return Ok(Some(c));
  }

  lemma {:induction false} CombineErr(c: CombinedProfile, profiles: seq<Fields>, extract: Extractor, n: nat)
    requires n <= |profiles|
    requires CombineFrom(c, profiles[..n], extract).Err?
    ensures CombineFrom(c, profiles, extract) == CombineFrom(c, profiles[..n], extract)
    decreases |profiles| - n
  {
    if n < |profiles| {
      assert profiles[..n + 1][..n] == profiles[..n];
      CombineErr(c, profiles, extract, n + 1);
    } else {
      assert profiles[..n] == profiles;
    }
  }

  // ---- Platform contributions ----

  function Min(a: real, b: real): real
  {
    if a <= b then a else b
  }

  /** The share of the overall score credited to one platform. */
  function Contribution(platform: Json, total: real): (r: real)
    ensures platform == JStr("github") ==> r <= 0.6 && r <= 0.5 * total && (r == 0.6 || r == 0.5 * total)
    ensures platform == JStr("linkedin") ==> r <= 0.4 && r <= 0.3 * total && (r == 0.4 || r == 0.3 * total)
    ensures platform == JStr("leetcode") ==> r <= 0.3 && r <= 0.2 * total && (r == 0.3 || r == 0.2 * total)
    ensures platform !in {JStr("github"), JStr("linkedin"), JStr("leetcode")} ==> r == 0.0
  {
    if platform == JStr("github") then Min(0.6, total * 0.5)
    else if platform == JStr("linkedin") then Min(0.4, total * 0.3)
    else if platform == JStr("leetcode") then Min(0.3, total * 0.2)
    else 0.0
  }

  /** A non-negative total gives every platform a share between 0 and 0.6, and never more than the total. */
  lemma ContributionBounds(platform: Json, total: real)
    requires 0.0 <= total
    ensures 0.0 <= Contribution(platform, total) <= 0.6
    ensures Contribution(platform, total) <= total
  {
  }

  /** `platform_contributions`, keyed by the platforms (a list or dict platform cannot be a key). */
  function Contributions(platforms: seq<Json>, total: real): Result<map<Json, real>>
  {
    if platforms == [] then Ok(map[])
    else
      var init := platforms[..|platforms| - 1];
      var p := platforms[|platforms| - 1];
      match Contributions(init, total)
      case Err(e) => Err(e)
      case Ok(m) =>
        if !Hashable(p) then Err(TypeError)
        else Ok(m[Canon(p) := Contribution(p, total)])
  }

  /**
   * The shares are defined exactly when every platform can be a key (when
   * `set(platforms)` is); then the keys are that set and every platform's
   * key holds its share.
   */
  lemma ContributionsSpec(platforms: seq<Json>, total: real)
    ensures Contributions(platforms, total).Ok? <==> forall i | 0 <= i < |platforms| :: Hashable(platforms[i])
    ensures Contributions(platforms, total).Ok? ==>
      var m := Contributions(platforms, total).value;
      && KeySet(platforms) == Ok(m.Keys)
      && forall i | 0 <= i < |platforms| :: m[Canon(platforms[i])] == Contribution(platforms[i], total)
  {
    ContributionsKeys(platforms, total);
    if Contributions(platforms, total).Ok? {
      ContributionsShares(platforms, total);
    }
  }

  lemma {:induction false} ContributionsKeys(platforms: seq<Json>, total: real)
    ensures Contributions(platforms, total).Ok? <==> KeySet(platforms).Ok?
    ensures Contributions(platforms, total).Ok? ==> KeySet(platforms) == Ok(Contributions(platforms, total).value.Keys)
    decreases |platforms|
  {
    if platforms != [] {
      var n := |platforms| - 1;
      var init, p := platforms[..n], platforms[n];
      ContributionsSnoc(platforms, total);
      ContributionsKeys(init, total);
      var before := Contributions(init, total);
      if before.Ok? && Hashable(p) {
        var m := before.value[Canon(p) := Contribution(p, total)];
        assert m.Keys == before.value.Keys + {Canon(p)};
      }
    } else {
      var empty: map<Json, real> := map[];
      assert empty.Keys == {};
    }
  }

  lemma {:induction false} ContributionsShares(platforms: seq<Json>, total: real)
    requires Contributions(platforms, total).Ok?
    ensures var m := Contributions(platforms, total).value;
      forall i | 0 <= i < |platforms| :: Canon(platforms[i]) in m && m[Canon(platforms[i])] == Contribution(platforms[i], total)
    decreases |platforms|
  {
    if platforms != [] {
      var n := |platforms| - 1;
      var init, p := platforms[..n], platforms[n];
      ContributionsSnoc(platforms, total);
      ContributionsShares(init, total);
      var m := Contributions(init, total).value[Canon(p) := Contribution(p, total)];
      forall i | 0 <= i < n
        ensures Canon(platforms[i]) in m && m[Canon(platforms[i])] == Contribution(platforms[i], total)
      {
        if Canon(platforms[i]) == Canon(p) {
          CanonShare(platforms[i], p, total);
        } else {
          assert platforms[i] == init[i];
        }
      }
    }
  }

  lemma ContributionsSnoc(platforms: seq<Json>, total: real)
    requires platforms != []
    ensures var before := Contributions(platforms[..|platforms| - 1], total);
      var p := platforms[|platforms| - 1];
      Contributions(platforms, total)
        == if before.Err? then Err(before.error) else if !Hashable(p) then Err(TypeError) else Ok(before.value[Canon(p) := Contribution(p, total)])
  {
  }

  /** Platforms that Python takes for the same key get the same share. */
  lemma CanonShare(a: Json, b: Json, total: real)
    requires Canon(a) == Canon(b)
    ensures Contribution(a, total) == Contribution(b, total)
  {
  }

  datatype CombinedMatch = CombinedMatch(score: EngineScore, platforms: seq<Json>, profileName: Json, contributions: map<Json, real>)

  /**
   * `match_combined_profile_to_job(profiles, job)`: the combined profile is
   * scored through its skill set (its text is empty, having no bio or
   * description); the score's overall value is shared out by platform.
   */
  function MatchCombined(profiles: seq<Fields>, job: Fields, extract: Extractor, similarity: Similarity): (r: Result<CombinedMatch>)
    ensures profiles == [] ==>
      r == Ok(CombinedMatch(CalculateMatchScore([], job, extract, similarity), [], JStr("Combined Profile"), map[]))
  {
    match CombineProfiles(profiles, extract)
    case Err(e) => Err(e)
    case Ok(None) =>
      var score := CalculateMatchScore([], job, extract, similarity);
      Ok(CombinedMatch(score, [], JStr("Combined Profile"), map[]))
    case Ok(Some(c)) =>
      var score :=
        match JobText(job)
        case Err(_) => FallbackScore
        case Ok(jt) => ScoreWith(Ok(c.skills), |c.skills|, JobSkills(job, extract), similarity("", jt));
      match Contributions(c.platforms, score.overallScore)
      case Err(e) => Err(e)
      case Ok(m) => Ok(CombinedMatch(score, c.platforms, c.name, m))
  }

  /**
   * A combined match lists one platform per profile, in order, under the
   * first profile's name, and credits every platform its capped share of the
   * overall score, keyed by the set of platforms.
   */
  lemma {:induction false} MatchCombinedFacts(profiles: seq<Fields>, job: Fields, extract: Extractor, similarity: Similarity)
    requires profiles != [] && MatchCombined(profiles, job, extract, similarity).Ok?
    ensures var r := MatchCombined(profiles, job, extract, similarity).value;
      && r.platforms == PlatformsOf(profiles)
      && r.profileName == GetOr(profiles[0], "name", JStr(""))
      && KeySet(r.platforms) == Ok(r.contributions.Keys)
      && forall i | 0 <= i < |profiles| ::
           r.contributions[Canon(PlatformOf(profiles[i]))] == Contribution(PlatformOf(profiles[i]), r.score.overallScore)
  {
    CombineProfilesFacts(profiles, extract);
    var r := MatchCombined(profiles, job, extract, similarity).value;
    ContributionsSpec(r.platforms, r.score.overallScore);
  }

  /**
   * A combined match fails exactly when combining the profiles fails or some
   * profile's platform cannot be a dict key.
   */
  lemma {:induction false} MatchCombinedFails(profiles: seq<Fields>, job: Fields, extract: Extractor, similarity: Similarity)
    ensures MatchCombined(profiles, job, extract, similarity).Err? <==>
      (CombineProfiles(profiles, extract).Err?
       || exists i | 0 <= i < |profiles| :: !Hashable(PlatformOf(profiles[i])))
  {
    var c := CombineProfiles(profiles, extract);
    if c.Ok? && profiles != [] {
      CombineProfilesFacts(profiles, extract);
      var score :=
        match JobText(job)
        case Err(_) => FallbackScore
        case Ok(jt) => ScoreWith(Ok(c.value.value.skills), |c.value.value.skills|, JobSkills(job, extract), similarity("", jt));
      ContributionsSpec(c.value.value.platforms, score.overallScore);
    }
  }
}

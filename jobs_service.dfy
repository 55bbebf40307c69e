/**
 * `process_job_requirements`: a job typed in by hand, whose skills arrive as
 * one comma-separated text. Earlier skills weigh more: the entry at comma
 * position i gets importance max(0.3, 1.0 - 0.1 i), rounded to tenths, and
 * blank entries are dropped but still use up their position.
 */
module JobsService {
  import opened Wrappers
  import opened Text
  import opened PyRound
  import opened Json

  /** A requirement; its importance is kept as a whole number of tenths, as `round(x, 1)` leaves it. */
  datatype Requirement = Requirement(skill: string, importanceTenths: int)

  datatype JobRecord = JobRecord(
    title: string,
    company: string,
    location: string,
    description: string,
    requirements: seq<Requirement>,
    url: string)

  const DefaultLocation: string := "Not specified"

  function Max(a: real, b: real): real
  {
    if a >= b then a else b
  }

  /** The importance of comma position `i`, in tenths: 1.0 falling by 0.1 per position, never below 0.3. */
  function ImportanceTenths(i: nat): (r: int)
    ensures 3 <= r <= 10
  {
    if i <= 7 then 10 - i else 3
  }

  /** `round(max(0.3, 1.0 - (i * 0.1)), 1)`, computed on exact reals, is that many tenths. */
  lemma {:induction false} ImportanceFormula(i: nat)
    ensures RoundTenths(Max(0.3, 1.0 - i as real * 0.1)) == ImportanceTenths(i)
  {
    var x := Max(0.3, 1.0 - i as real * 0.1);
    assert 10.0 * x == ImportanceTenths(i) as real;
    RoundWhole(ImportanceTenths(i));
  }

  /** A later position never weighs more. */
  lemma ImportanceNonIncreasing(i: nat, j: nat)
    requires i <= j
    ensures ImportanceTenths(j) <= ImportanceTenths(i)
  {
  }

  /** Every piece stripped of surrounding whitespace. */
  function StripEach(pieces: seq<string>): (r: seq<string>)
    ensures |r| == |pieces| && forall i | 0 <= i < |pieces| :: r[i] == Strip(pieces[i])
  {
    seq(|pieces|, i requires 0 <= i < |pieces| => Strip(pieces[i]))
  }

  /** What the stripped piece at position `i` contributes: nothing when it is blank. */
  function Entry(skill: string, i: nat): (r: seq<Requirement>)
    ensures |r| <= 1
    ensures r == [] <==> skill == ""
  {
    if skill != "" then [Requirement(skill, ImportanceTenths(i))] else []
  }

  /** The requirements made from the stripped pieces, each at its own position. */
  function RequirementsOf(skills: seq<string>): seq<Requirement>
  {
    if skills == [] then [] else RequirementsOf(skills[..|skills| - 1]) + Entry(skills[|skills| - 1], |skills| - 1)
  }

  /** The description given to a job entered by hand. */
  function Description(title: string, company: string): (r: string)
    ensures |r| == 27 + |title| + 4 + |company|
    ensures r[..27] == "Custom job description for " && r[27..27 + |title|] == title
    ensures r[27 + |title|..31 + |title|] == " at " && r[31 + |title|..] == company
  {
    "Custom job description for " + title + " at " + company
  }

  /** The requirements `skills_text` yields. */
  function RequirementsFromText(skillsText: string): seq<Requirement>
  {
    RequirementsOf(StripEach(SplitOn(skillsText, ",")))
  }

  /** `process_job_requirements(title, company, skills_text, location)`; a missing location is the default. */
  function JobOf(title: string, company: string, skillsText: string, location: Option<string>): JobRecord
  {
    JobRecord(
      title,
      company,
      if location.Some? then location.value else DefaultLocation,
      Description(title, company),
      RequirementsFromText(skillsText),
      "")
  }

  /** `process_job_requirements`: the record around the requirements its loop collects. */
  method ProcessJobRequirements(title: string, company: string, skillsText: string, location: Option<string>)
    returns (job: JobRecord)
    ensures job == JobOf(title, company, skillsText, location)
  {
    var skills := CollectRequirements(SplitOn(skillsText, ","));
    job := JobRecord(title, company, if location.Some? then location.value else DefaultLocation,
      Description(title, company), skills, "");
  }

  /** The enumerate loop of `process_job_requirements` over the comma-separated pieces. */
  method CollectRequirements(pieces: seq<string>) returns (skills: seq<Requirement>)
    ensures skills == RequirementsOf(StripEach(pieces))
  {
    ghost var stripped := StripEach(pieces);
    skills := [];
    for i := 0 to |pieces|
      invariant skills == RequirementsOf(stripped[..i])
    {
      RequirementsSnoc(stripped, i);
      var skill := Strip(pieces[i]);
      assert skill == stripped[i];
      if skill != "" {
        var importance := ImportanceTenths(i);
        assert Entry(skill, i) == [Requirement(skill, importance)];
        skills := skills + [Requirement(skill, importance)];
      } else {
        assert skills + Entry(skill, i) == skills;
      }
    }
    assert stripped[..|pieces|] == stripped;
  }

  lemma {:induction false} RequirementsSnoc(skills: seq<string>, i: nat)
    requires i < |skills|
    ensures RequirementsOf(skills[..i + 1]) == RequirementsOf(skills[..i]) + Entry(skills[i], i)
  {
    assert skills[..i + 1][..i] == skills[..i];
  }

  /** The requirement each non-blank stripped piece stands for, at the importance of its position. */
  function Candidates(skills: seq<string>): set<Requirement>
  {
    set i | 0 <= i < |skills| && skills[i] != "" :: Requirement(skills[i], ImportanceTenths(i))
  }

  lemma {:induction false} CandidatesSnoc(skills: seq<string>)
    requires skills != []
    ensures Candidates(skills) == Candidates(skills[..|skills| - 1]) + Elems(Entry(skills[|skills| - 1], |skills| - 1))
  {
    var n := |skills| - 1;
    var init := skills[..n];
    assert forall i | 0 <= i < n :: init[i] == skills[i];
    forall r | r in Candidates(skills)
      ensures r in Candidates(init) + Elems(Entry(skills[n], n))
    {
      var i :| 0 <= i < |skills| && skills[i] != "" && r == Requirement(skills[i], ImportanceTenths(i));
      if i < n {
        assert r in Candidates(init);
      }
    }
  }

  /**
   * The requirements are exactly those of the non-blank pieces: each one's
   * stripped text at the importance of its position; and there are no more of
   * them than pieces.
   */
  lemma {:induction false} RequirementsExact(skills: seq<string>)
    ensures Elems(RequirementsOf(skills)) == Candidates(skills)
    ensures |RequirementsOf(skills)| <= |skills|
  {
    if skills != [] {
      var n := |skills| - 1;
      RequirementsExact(skills[..n]);
      CandidatesSnoc(skills);
      var before := RequirementsOf(skills[..n]);
      var e := Entry(skills[n], n);
      assert RequirementsOf(skills) == before + e;
      assert Elems(before + e) == Elems(before) + Elems(e);
    }
  }

  predicate NonIncreasing(rs: seq<Requirement>)
  {
    forall a, b | 0 <= a < b < |rs| :: rs[b].importanceTenths <= rs[a].importanceTenths
  }

  /** Importances never increase along the list, and lie in [3, 10] tenths. */
  lemma {:induction false} RequirementsNonIncreasing(skills: seq<string>)
    ensures NonIncreasing(RequirementsOf(skills))
    ensures forall k | 0 <= k < |RequirementsOf(skills)| ::
      3 <= RequirementsOf(skills)[k].importanceTenths <= 10
    ensures forall k | 0 <= k < |RequirementsOf(skills)| ::
      ImportanceTenths(|skills|) <= RequirementsOf(skills)[k].importanceTenths
  {
    if skills != [] {
      var n := |skills| - 1;
      RequirementsNonIncreasing(skills[..n]);
      var before := RequirementsOf(skills[..n]);
      var e := Entry(skills[n], n);
      var rs := before + e;
      assert RequirementsOf(skills) == rs;
      ImportanceNonIncreasing(n, n + 1);
      forall a, b | 0 <= a < b < |rs|
        ensures rs[b].importanceTenths <= rs[a].importanceTenths
      {
        assert rs[a] == before[a];
        if b >= |before| {
          assert rs[b] == e[0];
        } else {
          assert rs[b] == before[b];
        }
      }
    }
  }

  predicate CleanSkill(s: string)
  {
    s != "" && !IsWs(s[0]) && !IsWs(s[|s| - 1]) && ',' !in s
  }

  /** Every requirement is a non-empty skill with no surrounding whitespace and no comma. */
  lemma {:induction false} RequirementsClean(text: string)
    ensures forall k | 0 <= k < |RequirementsFromText(text)| :: CleanSkill(RequirementsFromText(text)[k].skill)
  {
    SplitOnFree(text, ',');
    CleanFrom(SplitOn(text, ","));
  }

  lemma {:induction false} CleanFrom(pieces: seq<string>)
    requires forall i | 0 <= i < |pieces| :: ',' !in pieces[i]
    ensures forall k | 0 <= k < |RequirementsOf(StripEach(pieces))| :: CleanSkill(RequirementsOf(StripEach(pieces))[k].skill)
  {
    var stripped := StripEach(pieces);
    RequirementsExact(stripped);
    forall k | 0 <= k < |RequirementsOf(stripped)|
      ensures CleanSkill(RequirementsOf(stripped)[k].skill)
    {
      assert RequirementsOf(stripped)[k] in Elems(RequirementsOf(stripped));
      assert RequirementsOf(stripped)[k] in Candidates(stripped);
      CleanAt(pieces, stripped, RequirementsOf(stripped)[k]);
    }
  }

  lemma {:induction false} CleanAt(pieces: seq<string>, stripped: seq<string>, r: Requirement)
    requires forall i | 0 <= i < |pieces| :: ',' !in pieces[i]
    requires |stripped| == |pieces| && forall i | 0 <= i < |pieces| :: stripped[i] == Strip(pieces[i])
    requires r in Candidates(stripped)
    ensures CleanSkill(r.skill)
  {
    var i :| 0 <= i < |stripped| && stripped[i] != "" && r == Requirement(stripped[i], ImportanceTenths(i));
    StripClean(pieces[i]);
  }

  lemma {:induction false} StripClean(piece: string)
    requires ',' !in piece && Strip(piece) != ""
    ensures CleanSkill(Strip(piece))
  {
    StripAll(piece, c => c != ',');
  }

  /**
   * A blank entry still uses up its position: in "A,,B" the skill B gets 0.8,
   * not the 0.9 of the second position.
   */
  lemma {:induction false} BlankKeepsPosition(a: string, b: string)
    requires ',' !in a && ',' !in b && Strip(a) != "" && Strip(b) != ""
    ensures RequirementsFromText(a + ",," + b) == [Requirement(Strip(a), 10), Requirement(Strip(b), 8)]
  {
    var text := a + ",," + b;
    var pieces := [a, "", b];
    SplitBlank(a, b);
    StripBlank(pieces);
    RequirementsBlank(Strip(a), Strip(b));
    calc {
      RequirementsFromText(text);
      RequirementsOf(StripEach(SplitOn(text, ",")));
      RequirementsOf(StripEach(pieces));
      RequirementsOf([Strip(a), "", Strip(b)]);
    }
  }

  lemma {:induction false} SplitBlank(a: string, b: string)
    requires ',' !in a && ',' !in b
    ensures SplitOn(a + ",," + b, ",") == [a, "", b]
  {
    calc {
      SplitOn(a + ",," + b, ",");
      { assert a + ",," + b == a + [','] + ([','] + b); }
      SplitOn(a + [','] + ([','] + b), [',']);
      { SplitOnFirst(a, ',', [','] + b); }
      [a] + SplitOn([','] + b, [',']);
      { assert [] + [','] + b == [','] + b; SplitOnFirst([], ',', b); }
      [a] + ([""] + SplitOn(b, [',']));
      { SplitOnNone(b, ','); }
      [a, "", b];
    }
  }

  lemma {:induction false} StripBlank(pieces: seq<string>)
    requires |pieces| == 3 && pieces[1] == ""
    ensures StripEach(pieces) == [Strip(pieces[0]), "", Strip(pieces[2])]
  {
    var r := StripEach(pieces);
    assert |Strip(pieces[1])| <= 0;
    assert r[0] == Strip(pieces[0]) && r[1] == "" && r[2] == Strip(pieces[2]);
  }

  lemma {:induction false} RequirementsBlank(a: string, b: string)
    requires a != "" && b != ""
    ensures RequirementsOf([a, "", b]) == [Requirement(a, 10), Requirement(b, 8)]
  {
    var pieces := [a, "", b];
    var p1 := [a];
    var p2 := [a, ""];
    assert p1[..0] == [];
    assert p2[..1] == p1;
    assert pieces[..2] == p2;
    assert RequirementsOf(p1) == [Requirement(a, 10)];
    assert RequirementsOf(p2) == [Requirement(a, 10)];
  }

  /** The record echoes title, company and location, names both in its description and has no URL. */
  lemma JobFields(title: string, company: string, skillsText: string, location: Option<string>)
    ensures var job := JobOf(title, company, skillsText, location);
      && job.url == ""
      && (location.None? ==> job.location == "Not specified")
      && (location.Some? ==> job.location == location.value)
      && job.description == Description(title, company)
  {
  }
}

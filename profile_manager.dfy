/**
 * `ProfileManager._aggregate_profile_data`: the data fetched from each
 * platform, folded into one profile with a sorted skill list, the GitHub
 * projects and the platforms' contributions.
 */
module ProfileManager {
  import opened Wrappers
  import opened Json
  import opened Text
  import opened SortedStrings

  /** The data of each platform that answered, keyed by platform name, in fetch order. */
  type PlatformData = seq<(string, Fields)>

  datatype Aggregated = Aggregated(skills: seq<string>, projects: seq<Json>, contributions: Fields, platforms: Fields)

  /** The strings among `items`, or TypeError when one is not a string and so cannot be sorted with the rest. */
  function Strings(items: seq<Json>): (r: Result<seq<string>>)
    ensures r.Ok? <==> forall i | 0 <= i < |items| :: items[i].JStr?
    ensures r.Ok? ==> |r.value| == |items| && forall i | 0 <= i < |items| :: items[i] == JStr(r.value[i])
    ensures r.Err? ==> r.error == TypeError
  {
    if items == [] then Ok([])
    else
      match Strings(items[1..])
      case Err(e) => Err(e)
      case Ok(rest) =>
        if items[0].JStr? then
          assert forall i | 1 <= i < |items| :: items[i] == items[1..][i - 1];
          Ok([items[0].s] + rest)
        else Err(TypeError)
  }

  /** The skill names `aggregated['skills'].update(data['skills'])` adds, for a data dict that has skills. */
  function SkillNames(data: Fields): Result<seq<string>>
  {
    match Get(data, "skills")
    case None => Ok([])
    case Some(v) =>
      match Iterate(v)
      case Err(e) => Err(e)
      case Ok(items) => Strings(items)
  }

  /** The projects `aggregated['projects'].extend(...)` adds for one platform. */
  function ProjectsOf(platform: string, data: Fields): Result<seq<Json>>
  {
    if platform == "github" && Has(data, "projects") then Iterate(Get(data, "projects").value)
    else Ok([])
  }

  /** One pass of the loop over the platforms. */
  function AddPlatform(a: Aggregated, platform: string, data: Fields): (r: Result<Aggregated>)
    ensures r.Ok? <==> SkillNames(data).Ok? && ProjectsOf(platform, data).Ok?
    ensures r.Ok? ==> r.value.platforms == Put(a.platforms, platform, JObj(data))
    ensures r.Ok? ==> r.value.projects == a.projects + ProjectsOf(platform, data).value
    ensures r.Ok? && Has(data, "contributions") ==>
      r.value.contributions == Put(a.contributions, platform, Get(data, "contributions").value)
    ensures r.Ok? && !Has(data, "contributions") ==> r.value.contributions == a.contributions
  {
    match SkillNames(data)
    case Err(e) => Err(e)
    case Ok(names) =>
      match ProjectsOf(platform, data)
      case Err(e) => Err(e)
      case Ok(projects) =>
        Ok(Aggregated(
          InsertAll(a.skills, names),
          a.projects + projects,
          if Has(data, "contributions") then Put(a.contributions, platform, Get(data, "contributions").value)
          else a.contributions,
          Put(a.platforms, platform, JObj(data))))
  }

  function AggregateFrom(pd: PlatformData): Result<Aggregated>
  {
    if pd == [] then Ok(Aggregated([], [], [], []))
    else
      match AggregateFrom(pd[..|pd| - 1])
      case Err(e) => Err(e)
      case Ok(a) => AddPlatform(a, pd[|pd| - 1].0, pd[|pd| - 1].1)
  }

  /** The skill names every platform offers. */
  function Offered(pd: PlatformData): set<string>
  {
    if pd == [] then {}
    else
      var names := SkillNames(pd[|pd| - 1].1);
      Offered(pd[..|pd| - 1]) + (if names.Ok? then Elems(names.value) else {})
  }

  predicate EntryOk(platform: string, data: Fields)
  {
    SkillNames(data).Ok? && ProjectsOf(platform, data).Ok?
  }

  predicate Distinct(pd: PlatformData)
  {
    forall i, j | 0 <= i < j < |pd| :: pd[i].0 != pd[j].0
  }

  /** Every platform's skills and GitHub projects can be taken in. */
  predicate EntriesOk(pd: PlatformData)
  {
    forall i | 0 <= i < |pd| :: EntryOk(pd[i].0, pd[i].1)
  }

  lemma {:induction false} EntriesSnoc(pd: PlatformData)
    requires pd != []
    ensures EntriesOk(pd) <==> EntriesOk(pd[..|pd| - 1]) && EntryOk(pd[|pd| - 1].0, pd[|pd| - 1].1)
  {
    var init := pd[..|pd| - 1];
    assert forall i | 0 <= i < |init| :: init[i] == pd[i];
  }

  /** The aggregation fails (with TypeError) exactly when some platform's skills or GitHub projects cannot be taken in. */
  lemma {:induction false} AggregateOk(pd: PlatformData)
    ensures AggregateFrom(pd).Ok? <==> EntriesOk(pd)
    ensures AggregateFrom(pd).Err? ==> AggregateFrom(pd).error == TypeError
  {
    if pd != [] {
      var init := pd[..|pd| - 1];
      var last := pd[|pd| - 1];
      AggregateOk(init);
      EntriesSnoc(pd);
      if AggregateFrom(init).Ok? {
        assert AggregateFrom(pd) == AddPlatform(AggregateFrom(init).value, last.0, last.1);
      }
    }
  }

  /** The skill list is strictly increasing, so duplicate-free, and holds exactly the skills of every platform. */
  lemma {:induction false} AggregateSkills(pd: PlatformData)
    requires AggregateFrom(pd).Ok?
    ensures StrictlySorted(AggregateFrom(pd).value.skills)
    ensures Elems(AggregateFrom(pd).value.skills) == Offered(pd)
  {
    if pd != [] {
      var init := pd[..|pd| - 1];
      AggregateSkills(init);
      var a := AggregateFrom(init).value;
      InsertAllSorted(a.skills, SkillNames(pd[|pd| - 1].1).value);
    }
  }

  /** Every platform is kept under `platforms`, mapped to its own data, and nothing else is. */
  lemma {:induction false} AggregatePlatforms(pd: PlatformData)
    requires AggregateFrom(pd).Ok?
    requires Distinct(pd)
    ensures Keys(AggregateFrom(pd).value.platforms) == PlatformNames(pd)
    ensures forall i | 0 <= i < |pd| :: Get(AggregateFrom(pd).value.platforms, pd[i].0) == Some(JObj(pd[i].1))
  {
    if pd != [] {
      var init := pd[..|pd| - 1];
      var last := pd[|pd| - 1];
      assert Distinct(init);
      AggregatePlatforms(init);
      var a := AggregateFrom(init).value;
      assert forall i | 0 <= i < |pd| - 1 :: Get(a.platforms, pd[i].0) == Some(JObj(pd[i].1)) by {
        assert forall i | 0 <= i < |init| :: init[i] == pd[i];
      }
      assert AggregateFrom(pd) == AddPlatform(a, last.0, last.1);
      PlatformsStep(pd, a.platforms, AggregateFrom(pd).value.platforms);
      NamesSnoc(pd);
    }
  }

  lemma {:induction false} PlatformsStep(pd: PlatformData, before: Fields, after: Fields)
    requires pd != [] && Distinct(pd)
    requires forall i | 0 <= i < |pd| - 1 :: Get(before, pd[i].0) == Some(JObj(pd[i].1))
    requires after == Put(before, pd[|pd| - 1].0, JObj(pd[|pd| - 1].1))
    ensures forall i | 0 <= i < |pd| :: Get(after, pd[i].0) == Some(JObj(pd[i].1))
  {
    var last := pd[|pd| - 1];
    forall i | 0 <= i < |pd|
      ensures Get(after, pd[i].0) == Some(JObj(pd[i].1))
    {
      if i < |pd| - 1 {
        assert pd[i].0 != last.0;
      }
    }
  }

  function PlatformNames(pd: PlatformData): set<string>
  {
    set i | 0 <= i < |pd| :: pd[i].0
  }

  lemma {:induction false} NamesSnoc(pd: PlatformData)
    requires pd != []
    ensures PlatformNames(pd) == PlatformNames(pd[..|pd| - 1]) + {pd[|pd| - 1].0}
  {
    var init := pd[..|pd| - 1];
    assert forall i | 0 <= i < |init| :: init[i] == pd[i];
  }

  /** `contributions` has a key exactly for the platforms whose data has one, holding that platform's value. */
  lemma {:induction false} AggregateContributions(pd: PlatformData)
    requires AggregateFrom(pd).Ok?
    requires Distinct(pd)
    ensures Keys(AggregateFrom(pd).value.contributions) == ContributingPlatforms(pd)
    ensures forall i | 0 <= i < |pd| && Has(pd[i].1, "contributions") ::
      Get(AggregateFrom(pd).value.contributions, pd[i].0) == Get(pd[i].1, "contributions")
  {
    if pd != [] {
      var init := pd[..|pd| - 1];
      var last := pd[|pd| - 1];
      assert Distinct(init);
      AggregateContributions(init);
      var a := AggregateFrom(init).value;
      assert forall i | 0 <= i < |pd| - 1 && Has(pd[i].1, "contributions") ::
        Get(a.contributions, pd[i].0) == Get(pd[i].1, "contributions") by {
        assert forall i | 0 <= i < |init| :: init[i] == pd[i];
      }
      assert AggregateFrom(pd) == AddPlatform(a, last.0, last.1);
      ContributionsStep(pd, a.contributions, AggregateFrom(pd).value.contributions);
      ContributingSnoc(pd);
    }
  }

  lemma {:induction false} ContributionsStep(pd: PlatformData, before: Fields, after: Fields)
    requires pd != [] && Distinct(pd)
    requires forall i | 0 <= i < |pd| - 1 && Has(pd[i].1, "contributions") ::
      Get(before, pd[i].0) == Get(pd[i].1, "contributions")
    requires Has(pd[|pd| - 1].1, "contributions") ==>
      after == Put(before, pd[|pd| - 1].0, Get(pd[|pd| - 1].1, "contributions").value)
    requires !Has(pd[|pd| - 1].1, "contributions") ==> after == before
    ensures forall i | 0 <= i < |pd| && Has(pd[i].1, "contributions") ::
      Get(after, pd[i].0) == Get(pd[i].1, "contributions")
  {
    var last := pd[|pd| - 1];
    forall i | 0 <= i < |pd| && Has(pd[i].1, "contributions")
      ensures Get(after, pd[i].0) == Get(pd[i].1, "contributions")
    {
      if i < |pd| - 1 {
        assert pd[i].0 != last.0;
      }
    }
  }

  lemma {:induction false} ContributingSnoc(pd: PlatformData)
    requires pd != []
    ensures ContributingPlatforms(pd) == ContributingPlatforms(pd[..|pd| - 1]) +
      (if Has(pd[|pd| - 1].1, "contributions") then {pd[|pd| - 1].0} else {})
  {
    var init := pd[..|pd| - 1];
    assert forall i | 0 <= i < |init| :: init[i] == pd[i];
  }

  /** The platforms whose data holds "contributions". */
  function ContributingPlatforms(pd: PlatformData): set<string>
  {
    set i | 0 <= i < |pd| && Has(pd[i].1, "contributions") :: pd[i].0
  }

  /** Projects come only from the "github" entry: none without one, and that entry's projects, in order, with it. */
  lemma AggregateProjects(pd: PlatformData)
    requires AggregateFrom(pd).Ok?
    requires Distinct(pd)
    ensures (forall i | 0 <= i < |pd| :: pd[i].0 != "github") ==> AggregateFrom(pd).value.projects == []
    ensures forall k | 0 <= k < |pd| && pd[k].0 == "github" ::
      ProjectsOf("github", pd[k].1) == Ok(AggregateFrom(pd).value.projects)
  {
    if forall i | 0 <= i < |pd| :: pd[i].0 != "github" {
      NoGitHubNoProjects(pd);
    }
    forall k | 0 <= k < |pd| && pd[k].0 == "github"
      ensures ProjectsOf("github", pd[k].1) == Ok(AggregateFrom(pd).value.projects)
    {
      GitHubProjects(pd, k);
    }
  }

  lemma {:induction false} NoGitHubNoProjects(pd: PlatformData)
    requires AggregateFrom(pd).Ok?
    requires forall i | 0 <= i < |pd| :: pd[i].0 != "github"
    ensures AggregateFrom(pd).value.projects == []
  {
    if pd != [] {
      var init := pd[..|pd| - 1];
      assert forall i | 0 <= i < |init| :: init[i] == pd[i];
      NoGitHubNoProjects(init);
    }
  }

  lemma {:induction false} GitHubProjects(pd: PlatformData, k: int)
    requires AggregateFrom(pd).Ok?
    requires Distinct(pd)
    requires 0 <= k < |pd| && pd[k].0 == "github"
    ensures ProjectsOf("github", pd[k].1) == Ok(AggregateFrom(pd).value.projects)
  {
    var n := |pd| - 1;
    var init := pd[..n];
    assert forall i | 0 <= i < |init| :: init[i] == pd[i];
    var a := AggregateFrom(init).value;
    assert AggregateFrom(pd) == AddPlatform(a, pd[n].0, pd[n].1);
    if k == n {
      assert forall i | 0 <= i < |init| :: init[i].0 != "github";
      NoGitHubNoProjects(init);
      var projects := ProjectsOf("github", pd[n].1).value;
      assert a.projects + projects == projects;
    } else {
      assert pd[n].0 != "github";
      GitHubProjects(init, k);
      assert a.projects + [] == a.projects;
    }
  }

  /** `_aggregate_profile_data(platform_data)`, by the loop of the source. */
  method AggregateProfileData(pd: PlatformData) returns (r: Result<Aggregated>)
    ensures r == AggregateFrom(pd)
  {
    var skills: seq<string> := [];
    var projects: seq<Json> := [];
    var contributions: Fields := [];
    var platforms: Fields := [];
    for i := 0 to |pd|
      invariant AggregateFrom(pd[..i]) == Ok(Aggregated(skills, projects, contributions, platforms))
      invariant StrictlySorted(skills)
    {
      assert pd[..i + 1][..i] == pd[..i];
      var (platform, data) := pd[i];
      platforms := Put(platforms, platform, JObj(data));
      var names := SkillNames(data);
      if names.Err? {
        AggregateErr(pd, i + 1);
        return Err(names.error);
      }
      skills := AddSkills(skills, names.value);
      var more := ProjectsOf(platform, data);
      if more.Err? {
        AggregateErr(pd, i + 1);
        return Err(more.error);
      }
      projects := projects + more.value;
      if Has(data, "contributions") {
        contributions := Put(contributions, platform, Get(data, "contributions").value);
      }
    }
    assert pd[..|pd|] == pd;
    return Ok(Aggregated(skills, projects, contributions, platforms));
  }

  /** `skills.update(names)` on the sorted list standing for the set. */
  method AddSkills(skills: seq<string>, names: seq<string>) returns (r: seq<string>)
    requires StrictlySorted(skills)
    ensures r == InsertAll(skills, names)
    ensures StrictlySorted(r)
  {
    r := skills;
    for j := 0 to |names|
      invariant StrictlySorted(r)
      invariant Elems(r) == Elems(skills) + Elems(names[..j])
    {
      InsertSorted(r, names[j]);
      assert Elems(names[..j + 1]) == Elems(names[..j]) + {names[j]} by {
        assert names[..j + 1] == names[..j] + [names[j]];
      }
      r := Insert(r, names[j]);
    }
    assert names[..|names|] == names;
    InsertAllSorted(skills, names);
    SortedUnique(r, InsertAll(skills, names));
  }

  lemma {:induction false} AggregateErr(pd: PlatformData, n: nat)
    requires n <= |pd|
    requires AggregateFrom(pd[..n]).Err?
    ensures AggregateFrom(pd) == AggregateFrom(pd[..n])
    decreases |pd| - n
  {
    if n < |pd| {
      assert pd[..n + 1][..n] == pd[..n];
      AggregateErr(pd, n + 1);
    } else {
      assert pd[..n] == pd;
    }
  }
}

/**
 * `GitHubShaping`: how the GitHub scraper turns what the extraction model
 * returned for a profile page and a repositories page into one profile
 * dict. Payloads of the wrong shape are coerced, the lists are capped
 * (3 repositories, 10 skills, 5 technologies per project) and missing
 * fields get defaults. The two page fetches are inputs.
 */
module GitHubShaping {
  import opened Wrappers
  import opened Json

  /** `MAX_REPOS`. */
  const MaxRepos := 3

  /** Skills considered from the profile. */
  const MaxSkills := 10

  /** Technologies kept per project. */
  const MaxTechnologies := 5

  /** `xs[:n]`. */
  function Take<T>(xs: seq<T>, n: nat): (r: seq<T>)
    ensures |r| <= n && |r| <= |xs|
    ensures r == xs[..|r|]
    ensures |xs| <= n ==> r == xs
  {
    if |xs| <= n then xs else xs[..n]
  }

  // ---------------------------------------------------------------------------
  // Payload coercion.

  /**
   * The profile payload as a dict: a dict as it is, the first element of a
   * non-empty list when that is a dict, and `{}` otherwise.
   */
  function ProfileDict(data: Json): (r: Fields)
    ensures data.JObj? ==> r == data.fields
    ensures data.JArr? && data.items != [] && data.items[0].JObj? ==> r == data.items[0].fields
    ensures !data.JObj? && !(data.JArr? && data.items != [] && data.items[0].JObj?) ==> r == []
  {
    match data
    case JObj(fs) => fs
    case JArr(items) => if items != [] && items[0].JObj? then items[0].fields else []
    case _ => []
  }

  /**
   * `repos_list[:MAX_REPOS] if repos_list else []` on the "projects" value
   * of a dict or on a list; slicing a non-empty dict, a number or `True`
   * raises, and a string slices to its first characters. The error is the
   * TypeError of Python before 3.12; from 3.12 on, slices are hashable and
   * slicing a dict raises KeyError instead.
   */
  function RepoList(data: Json): (r: Result<seq<Json>>)
  {
    var list :=
      if data.JObj? && Has(data.fields, "projects") then GetOr(data.fields, "projects", JNull)
      else if data.JArr? then data
      else JArr([]);
    if !Truthy(list) then Ok([])
    else
      match list
      case JArr(xs) => Ok(Take(xs, MaxRepos))
      case JStr(s) => Ok(CharStrings(Take(s, MaxRepos)))
      case _ => Err(TypeError)
  }

  /**
   * At most `MaxRepos` entries come out; only a "projects" value that is a
   * non-empty dict, a non-zero number or `True` makes the slice raise.
   */
  lemma RepoListSpec(data: Json)
    ensures RepoList(data).Ok? ==> |RepoList(data).value| <= MaxRepos
    ensures RepoList(data).Err? <==>
      data.JObj? && Has(data.fields, "projects")
      && var v := GetOr(data.fields, "projects", JNull);
         Truthy(v) && (v.JObj? || v.JNum? || v.JBool?)
    ensures data.JArr? ==> RepoList(data) == Ok(Take(data.items, MaxRepos))
  {
  }

  // ---------------------------------------------------------------------------
  // Skills.

  /** One raw skill: a string becomes `{"name": s}`, a dict with "name" stays, anything else is dropped. */
  function SkillOf(x: Json): Option<Json>
  {
    match x
    case JStr(s) => Some(JObj([("name", JStr(s))]))
    case JObj(fs) => if Has(fs, "name") then Some(x) else None
    case _ => None
  }

  /** The skill loop over `items`, in order. */
  function SkillsOf(items: seq<Json>): seq<Json>
  {
    if items == [] then []
    else
      var init := SkillsOf(items[..|items| - 1]);
      match SkillOf(items[|items| - 1])
      case Some(s) => init + [s]
      case None => init
  }

  /** The skills of a profile: the first `MaxSkills` entries of a "skills" list. */
  function Skills(profile: Fields): seq<Json>
  {
    var v := GetOr(profile, "skills", JNull);
    if v.JArr? then SkillsOf(Take(v.items, MaxSkills)) else []
  }

  predicate SkillShaped(s: Json)
  {
    s.JObj? && Has(s.fields, "name")
  }

  lemma {:induction false} SkillOfSpec(x: Json)
    ensures SkillOf(x).Some? <==> x.JStr? || (x.JObj? && Has(x.fields, "name"))
    ensures SkillOf(x).Some? ==> SkillShaped(SkillOf(x).value)
    ensures SkillOf(x).Some? ==> SkillOf(SkillOf(x).value) == SkillOf(x)
  {
    if x.JStr? {
      assert Keys([("name", JStr(x.s))]) == {"name"};
    }
  }

  /** Each kept skill is a dict with "name", none is invented, and a second pass changes nothing. */
  lemma {:induction false} SkillsOfSpec(items: seq<Json>)
    ensures |SkillsOf(items)| <= |items|
    ensures forall i | 0 <= i < |SkillsOf(items)| :: SkillShaped(SkillsOf(items)[i])
    ensures SkillsOf(SkillsOf(items)) == SkillsOf(items)
    decreases |items|
  {
    if items != [] {
      var init := items[..|items| - 1];
      var last := items[|items| - 1];
      SkillsOfSpec(init);
      SkillOfSpec(last);
      var before := SkillsOf(init);
      match SkillOf(last)
      case None =>
      case Some(s) =>
        var after := before + [s];
        assert after[..|after| - 1] == before;
        assert SkillsOf(after) == SkillsOf(before) + [s];
    }
  }

  /** At most `MaxSkills` skills, each a dict with "name". */
  lemma {:induction false} SkillsSpec(profile: Fields)
    ensures |Skills(profile)| <= MaxSkills
    ensures forall i | 0 <= i < |Skills(profile)| :: SkillShaped(Skills(profile)[i])
  {
    var v := GetOr(profile, "skills", JNull);
    if v.JArr? {
      SkillsOfSpec(Take(v.items, MaxSkills));
    }
  }

  /** The skill loop of `scrape_github_profile`. */
  method ExtractSkills(profile: Fields) returns (skills: seq<Json>)
    ensures skills == Skills(profile)
  {
    skills := [];
    if Has(profile, "skills") && GetOr(profile, "skills", JNull).JArr? {
      var items := Take(GetOr(profile, "skills", JArr([])).items, MaxSkills);
      for i := 0 to |items|
        invariant skills == SkillsOf(items[..i])
      {
        assert items[..i + 1][..i] == items[..i];
        var x := items[i];
        match x
        case JStr(s) =>
          skills := skills + [JObj([("name", JStr(s))])];
        case JObj(fs) =>
          if Has(fs, "name") {
            skills := skills + [x];
          }
        case _ =>
      }
      assert items[..|items|] == items;
    }
  }

  // ---------------------------------------------------------------------------
  // Projects.

  /** The technologies of a project as a list: a lone value wrapped, none as `[]`, then cut to `MaxTechnologies`. */
  function Technologies(fs: Fields): seq<Json>
  {
    match Get(fs, "technologies")
    case None => []
    case Some(v) => if v.JArr? then Take(v.items, MaxTechnologies) else [v]
  }

  function ShapeProject(fs: Fields): Fields
  {
    Put(fs, "technologies", JArr(Technologies(fs)))
  }

  /** The project loop: dicts with "name", shaped; everything else dropped. */
  function ProjectsOf(repos: seq<Json>): seq<Json>
  {
    if repos == [] then []
    else
      var init := ProjectsOf(repos[..|repos| - 1]);
      var p := repos[|repos| - 1];
      if p.JObj? && Has(p.fields, "name") then init + [JObj(ShapeProject(p.fields))] else init
  }

  predicate ProjectShaped(p: Json)
  {
    && p.JObj?
    && Has(p.fields, "name")
    && GetOr(p.fields, "technologies", JNull).JArr?
    && |GetOr(p.fields, "technologies", JNull).items| <= MaxTechnologies
  }

  /**
   * A shaped project keeps every field but "technologies", which becomes a
   * list of at most `MaxTechnologies` values: the first ones of a list, a
   * lone value wrapped, or none; shaping it again changes nothing.
   */
  lemma {:induction false} ShapeProjectSpec(fs: Fields)
    requires Has(fs, "name")
    ensures ProjectShaped(JObj(ShapeProject(fs)))
    ensures Keys(ShapeProject(fs)) == Keys(fs) + {"technologies"}
    ensures forall k | k != "technologies" :: Get(ShapeProject(fs), k) == Get(fs, k)
    ensures Get(fs, "technologies").Some? && Get(fs, "technologies").value.JArr? ==>
      GetOr(ShapeProject(fs), "technologies", JNull).items == Take(Get(fs, "technologies").value.items, MaxTechnologies)
    ensures Get(fs, "technologies").Some? && !Get(fs, "technologies").value.JArr? ==>
      GetOr(ShapeProject(fs), "technologies", JNull).items == [Get(fs, "technologies").value]
    ensures Get(fs, "technologies") == None ==> GetOr(ShapeProject(fs), "technologies", JNull).items == []
    ensures ShapeProject(ShapeProject(fs)) == ShapeProject(fs)
  {
    var once := ShapeProject(fs);
    assert Get(once, "technologies") == Some(JArr(Technologies(fs)));
    assert Technologies(once) == Technologies(fs);
    PutSame(once, "technologies");
  }

  /** Writing back the value a key already has changes nothing. */
  lemma {:induction false} PutSame(fs: Fields, k: string)
    requires Get(fs, k).Some?
    ensures Put(fs, k, Get(fs, k).value) == fs
  {
    if fs[0].0 != k {
      PutSame(fs[1..], k);
    }
  }

  /** A second write to a key replaces the first. */
  lemma {:induction false} PutTwice(fs: Fields, k: string, a: Json, b: Json)
    ensures Put(Put(fs, k, a), k, b) == Put(fs, k, b)
  {
    if fs != [] && fs[0].0 != k {
      PutTwice(fs[1..], k, a, b);
    }
  }

  /** At most as many projects as repositories, each shaped. */
  lemma {:induction false} ProjectsOfSpec(repos: seq<Json>)
    ensures |ProjectsOf(repos)| <= |repos|
    ensures forall i | 0 <= i < |ProjectsOf(repos)| :: ProjectShaped(ProjectsOf(repos)[i])
    decreases |repos|
  {
    if repos != [] {
      ProjectsOfSpec(repos[..|repos| - 1]);
      var p := repos[|repos| - 1];
      if p.JObj? && Has(p.fields, "name") {
        ShapeProjectSpec(p.fields);
      }
    }
  }

  /** The project loop of `scrape_github_profile`. */
  method ExtractProjects(repos: seq<Json>) returns (projects: seq<Json>)
    ensures projects == ProjectsOf(repos)
  {
    projects := [];
    for i := 0 to |repos|
      invariant projects == ProjectsOf(repos[..i])
    {
      assert repos[..i + 1][..i] == repos[..i];
      var proj := repos[i];
      if proj.JObj? && Has(proj.fields, "name") {
        var fs := proj.fields;
        if Has(fs, "technologies") && !GetOr(fs, "technologies", JNull).JArr? {
          fs := Put(fs, "technologies", JArr([GetOr(fs, "technologies", JNull)]));
        } else if !Has(fs, "technologies") {
          fs := Put(fs, "technologies", JArr([]));
        }
        var cut := JArr(Take(GetOr(fs, "technologies", JArr([])).items, MaxTechnologies));
        assert cut == JArr(Technologies(proj.fields));
        if fs != proj.fields {
          PutTwice(proj.fields, "technologies", GetOr(fs, "technologies", JNull), cut);
        }
        fs := Put(fs, "technologies", cut);
        projects := projects + [JObj(fs)];
      }
    }
    assert repos[..|repos|] == repos;
  }

  // ---------------------------------------------------------------------------
  // The profile dict.

  /** The statistics `github_stats` reports, in order. */
  const StatKeys: seq<string> := ["followers", "following", "contributions", "stars", "repositories"]

  function Stats(profile: Fields): Json
  {
    JObj([
      ("followers", GetOr(profile, "followers", JNum(0.0))),
      ("following", GetOr(profile, "following", JNum(0.0))),
      ("contributions", GetOr(profile, "contributions", JNum(0.0))),
      ("stars", GetOr(profile, "stars", JNum(0.0))),
      ("repositories", GetOr(profile, "repositories", JNum(0.0)))
    ])
  }

  /** `github_info` from the two payloads; only the repositories slice can raise. */
  function GitHubInfo(username: string, profileData: Json, reposData: Json): Result<Json>
  {
    var profile := ProfileDict(profileData);
    match RepoList(reposData)
    case Err(e) => Err(e)
    case Ok(repos) =>
      Ok(JObj([
        ("name", GetOr(profile, "name", JStr(username))),
        ("bio", GetOr(profile, "bio", JStr(""))),
        ("location", GetOr(profile, "location", JStr(""))),
        ("skills", JArr(Skills(profile))),
        ("projects", JArr(ProjectsOf(repos))),
        ("github_stats", Stats(profile))
      ]))
  }

  /**
   * The profile dict: the name is the profile's or the username, the bio and
   * location are the profile's or "", there are
   * at most `MaxSkills` well-formed skills and at most `MaxRepos` shaped
   * projects, and `github_stats` holds the five statistics in order, each
   * copied from the profile or 0 when the profile lacks it.
   */
  lemma {:induction false} GitHubInfoSpec(username: string, profileData: Json, reposData: Json)
    ensures GitHubInfo(username, profileData, reposData).Err? <==> RepoList(reposData).Err?
    ensures GitHubInfo(username, profileData, reposData).Ok? ==>
      var info := GitHubInfo(username, profileData, reposData).value;
      var profile := ProfileDict(profileData);
      && info.JObj? && |info.fields| == 6
      && info.fields[0] == ("name", if Has(profile, "name") then GetOr(profile, "name", JNull) else JStr(username))
      && info.fields[1] == ("bio", if Has(profile, "bio") then GetOr(profile, "bio", JNull) else JStr(""))
      && info.fields[2] == ("location", if Has(profile, "location") then GetOr(profile, "location", JNull) else JStr(""))
      && info.fields[3].0 == "skills" && info.fields[4].0 == "projects" && info.fields[5].0 == "github_stats"
      && info.fields[3].1.JArr? && |info.fields[3].1.items| <= MaxSkills
      && (forall i | 0 <= i < |info.fields[3].1.items| :: SkillShaped(info.fields[3].1.items[i]))
      && info.fields[4].1.JArr? && |info.fields[4].1.items| <= MaxRepos
      && (forall i | 0 <= i < |info.fields[4].1.items| :: ProjectShaped(info.fields[4].1.items[i]))
      && info.fields[5].1.JObj? && |info.fields[5].1.fields| == 5
      && (forall i | 0 <= i < 5 :: info.fields[5].1.fields[i]
            == (StatKeys[i], if Has(profile, StatKeys[i]) then GetOr(profile, StatKeys[i], JNull) else JNum(0.0)))
  {
    var profile := ProfileDict(profileData);
    SkillsSpec(profile);
    RepoListSpec(reposData);
    var repos := RepoList(reposData);
    if repos.Ok? {
      ProjectsOfSpec(repos.value);
    }
  }

  /** `scrape_github_profile` after the two fetches. */
  method ScrapeGitHubProfile(username: string, profileData: Json, reposData: Json) returns (r: Result<Json>)
    ensures r == GitHubInfo(username, profileData, reposData)
  {
    var profile := ProfileDict(profileData);
    var repos := RepoList(reposData);
    if repos.Err? {
      return Err(repos.error);
    }
    var skills := ExtractSkills(profile);
    var projects := ExtractProjects(repos.value);
    r := Ok(JObj([
      ("name", GetOr(profile, "name", JStr(username))),
      ("bio", GetOr(profile, "bio", JStr(""))),
      ("location", GetOr(profile, "location", JStr(""))),
      ("skills", JArr(skills)),
      ("projects", JArr(projects)),
      ("github_stats", Stats(profile))
    ]));
  }
}

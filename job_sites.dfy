/**
 * `JobSites`: what the job-site scraper keeps from the pages that the
 * extraction model returns. Each page's payload is coerced to a list of
 * entries; complete entries that were not seen before are kept, with their
 * requirements normalised and a url filled in, until five jobs are found.
 * The page fetch (browser, extraction model, retries) is a parameter, and
 * so is `str()` of a non-string title or company.
 */
module JobSites {
  import opened Wrappers
  import opened Json
  import opened Text

  /** `MAX_JOBS_PER_SITE`. */
  const MaxJobsPerSite := 5

  /** The page limit applied to the configured page count. */
  const MaxPages := 2

  /** `JOB_REQUIRED_KEYS`. */
  const RequiredKeys: seq<string> := ["title", "company", "description", "requirements"]

  // ---------------------------------------------------------------------------
  // Site, pages and page URLs.

  /** `get_site_name`: "indeed" before "linkedin", by a case-insensitive substring test. */
  function SiteName(url: string): (r: string)
    ensures r in {"indeed", "linkedin", "job_site"}
    ensures r == "indeed" <==> IsInfix("indeed", Lower(url))
    ensures r == "linkedin" <==> !IsInfix("indeed", Lower(url)) && IsInfix("linkedin", Lower(url))
  {
    if IsInfix("indeed", Lower(url)) then "indeed"
    else if IsInfix("linkedin", Lower(url)) then "linkedin"
    else "job_site"
  }

  /** `min(site_config.get("pages", 1), 2)`. */
  function PageCount(pages: Option<int>): (r: int)
    ensures r <= MaxPages
    ensures pages == None ==> r == 1
    ensures pages.Some? ==> r == pages.value || (r == MaxPages && pages.value > MaxPages)
  {
    match pages
    case None => 1
    case Some(p) => if p < MaxPages then p else MaxPages
  }

  /** The URL of page `page`: Indeed counts results in tens, other sites count pages. */
  function PageUrl(base: string, page: nat): string
    requires page >= 1
  {
    if IsInfix("indeed", Lower(base)) then base + "&start=" + NatToString((page - 1) * 10)
    else base + "&page=" + NatToString(page)
  }

  /** The URLs of pages 1 to `count`, in order (`range(1, pages + 1)`). */
  function PageUrls(base: string, count: int): (r: seq<string>)
    ensures |r| == if count > 0 then count else 0
  {
    seq(if count > 0 then count else 0, i requires 0 <= i => PageUrl(base, i + 1))
  }

  /**
   * The entries of a page: the "jobs" value of a dict that has one, a list
   * itself, nothing for anything else. A "jobs" value that cannot be
   * iterated raises TypeError when the loop starts.
   */
  function PageJobs(data: Json): (r: Result<seq<Json>>)
    ensures data.JArr? ==> r == Ok(data.items)
    ensures r.Err? <==> data.JObj? && Has(data.fields, "jobs") && Iterate(GetOr(data.fields, "jobs", JNull)).Err?
    ensures !data.JArr? && !(data.JObj? && Has(data.fields, "jobs")) ==> r == Ok([])
  {
    match data
    case JObj(fs) => if Has(fs, "jobs") then Iterate(GetOr(fs, "jobs", JNull)) else Ok([])
    case JArr(items) => Ok(items)
    case _ => Ok([])
  }

  // ---------------------------------------------------------------------------
  // Requirements.

  /** `isinstance(v, (int, float))`: a Python bool is an int. */
  predicate IsNumber(v: Json)
  {
    v.JNum? || v.JBool?
  }

  /** An importance the scraper leaves alone: a number in [0, 1], or a bool (neither above 1 nor below 0). */
  predicate ImportanceOk(v: Json)
  {
    v.JBool? || (v.JNum? && 0.0 <= v.n <= 1.0)
  }

  /** The importance of a requirement dict after the clamp: missing or not a number gives 0.5. */
  function FixImportance(fs: Fields): Fields
  {
    match Get(fs, "importance")
    case None => Put(fs, "importance", JNum(0.5))
    case Some(v) =>
      if !IsNumber(v) then Put(fs, "importance", JNum(0.5))
      else if v.JNum? && v.n > 1.0 then Put(fs, "importance", JNum(1.0))
      else if v.JNum? && v.n < 0.0 then Put(fs, "importance", JNum(0.0))
      else fs
  }

  /**
   * One requirement: a dict with "skill" keeps its fields with the
   * importance fixed, a string becomes `{"skill": s, "importance": 0.5}`,
   * anything else is dropped.
   */
  function NormaliseRequirement(req: Json): Option<Json>
  {
    match req
    case JObj(fs) => if Has(fs, "skill") then Some(JObj(FixImportance(fs))) else None
    case JStr(s) => Some(JObj([("skill", JStr(s)), ("importance", JNum(0.5))]))
    case _ => None
  }

  /** What every kept requirement looks like. */
  predicate RequirementShaped(r: Json)
  {
    r.JObj? && Has(r.fields, "skill") && Has(r.fields, "importance")
    && ImportanceOk(GetOr(r.fields, "importance", JNull))
  }

  /**
   * A requirement is kept exactly when it is a dict with "skill" or a
   * string; a kept dict keeps every field but the importance, which stays
   * when it is already acceptable, is clamped to [0, 1] when it is a number
   * outside, and is 0.5 otherwise.
   */
  lemma {:induction false} NormaliseRequirementSpec(req: Json)
    ensures NormaliseRequirement(req).Some? <==> (req.JObj? && Has(req.fields, "skill")) || req.JStr?
    ensures NormaliseRequirement(req).Some? ==> RequirementShaped(NormaliseRequirement(req).value)
    ensures req.JObj? && NormaliseRequirement(req).Some? ==>
      var fs := NormaliseRequirement(req).value.fields;
      var prior := Get(req.fields, "importance");
      && Keys(fs) == Keys(req.fields) + {"importance"}
      && (forall k | k != "importance" :: Get(fs, k) == Get(req.fields, k))
      && GetOr(fs, "importance", JNull) ==
        if prior.Some? && ImportanceOk(prior.value) then prior.value
        else if prior.Some? && prior.value.JNum? && prior.value.n > 1.0 then JNum(1.0)
        else if prior.Some? && prior.value.JNum? && prior.value.n < 0.0 then JNum(0.0)
        else JNum(0.5)
  {
    if req.JStr? {
      var fs: Fields := [("skill", JStr(req.s)), ("importance", JNum(0.5))];
      KeysOfTwo(fs[0], fs[1]);
      assert fs == [fs[0], fs[1]];
      assert fs[1..] == [("importance", JNum(0.5))];
      assert Get(fs[1..], "importance") == Some(JNum(0.5));
      assert Get(fs, "importance") == Some(JNum(0.5));
    }
  }

  /** Normalising a normalised requirement changes nothing. */
  lemma {:induction false} NormaliseIdempotent(req: Json)
    requires NormaliseRequirement(req).Some?
    ensures NormaliseRequirement(NormaliseRequirement(req).value) == NormaliseRequirement(req)
  {
    NormaliseRequirementSpec(req);
    var r := NormaliseRequirement(req).value;
    assert Has(r.fields, "skill");
    assert FixImportance(r.fields) == r.fields;
  }

  /** The loop over `job["requirements"]`, dropping what is not kept. */
  function Requirements(items: seq<Json>): seq<Json>
  {
    if items == [] then []
    else
      var init := Requirements(items[..|items| - 1]);
      match NormaliseRequirement(items[|items| - 1])
      case Some(r) => init + [r]
      case None => init
  }

  predicate AllShaped(rs: seq<Json>)
  {
    forall i | 0 <= i < |rs| :: RequirementShaped(rs[i])
  }

  /** Every kept requirement is shaped, none is invented, and a second pass changes nothing. */
  lemma {:induction false} RequirementsSpec(items: seq<Json>)
    ensures AllShaped(Requirements(items))
    ensures |Requirements(items)| <= |items|
    ensures Requirements(Requirements(items)) == Requirements(items)
    decreases |items|
  {
    if items != [] {
      var init := items[..|items| - 1];
      var last := items[|items| - 1];
      RequirementsSpec(init);
      var before := Requirements(init);
      NormaliseRequirementSpec(last);
      match NormaliseRequirement(last)
      case None =>
      case Some(r) =>
        var after := before + [r];
        assert after[..|after| - 1] == before;
        NormaliseIdempotent(last);
        assert Requirements(after) == Requirements(before) + [r];
    }
  }

  /** The requirement loop of `scrape_job_listings`. */
  method NormaliseRequirements(items: seq<Json>) returns (processed: seq<Json>)
    ensures processed == Requirements(items)
  {
    processed := [];
    for i := 0 to |items|
      invariant processed == Requirements(items[..i])
    {
      assert items[..i + 1][..i] == items[..i];
      var req := items[i];
      match req
      case JObj(fs) =>
        if Has(fs, "skill") {
          processed := processed + [JObj(FixImportance(fs))];
        }
      case JStr(s) =>
        processed := processed + [JObj([("skill", JStr(s)), ("importance", JNum(0.5))])];
      case _ =>
    }
    assert items[..|items|] == items;
  }

  // ---------------------------------------------------------------------------
  // Jobs.

  /** The jobs kept so far and the identifiers seen (`jobs`, `seen_job_titles`). */
  datatype Scan = Scan(jobs: seq<Json>, seen: set<string>)

  /** `f"{v}"`: a string as it is, anything else through `show`. */
  function Display(v: Json, show: Json -> string): string
  {
    if v.JStr? then v.s else show(v)
  }

  /** `f"{job['title']}_{job['company']}"`. */
  function Identifier(fs: Fields, show: Json -> string): string
  {
    Display(GetOr(fs, "title", JNull), show) + "_" + Display(GetOr(fs, "company", JNull), show)
  }

  function JobId(job: Json, show: Json -> string): string
  {
    if job.JObj? then Identifier(job.fields, show) else ""
  }

  /** `is_complete_data(job, JOB_REQUIRED_KEYS)`. */
  predicate Complete(fs: Fields)
  {
    forall k | k in RequiredKeys :: Has(fs, k)
  }

  /** A dict with its requirements normalised and, when it had none, the page URL. */
  function Finished(fs: Fields, reqs: seq<Json>, pageUrl: string): Fields
  {
    var withReqs := Put(fs, "requirements", JArr(reqs));
    if Has(withReqs, "url") then withReqs else Put(withReqs, "url", JStr(pageUrl))
  }

  /**
   * One entry of a page: skipped unless it is a non-empty, complete dict
   * whose identifier is new; otherwise kept, finished. Requirements that
   * cannot be iterated raise TypeError.
   */
  function Accept(st: Scan, job: Json, pageUrl: string, show: Json -> string): Result<Scan>
  {
    if !job.JObj? || job.fields == [] || !Complete(job.fields) then Ok(st)
    else
      var id := Identifier(job.fields, show);
      if id in st.seen then Ok(st)
      else
        match Iterate(GetOr(job.fields, "requirements", JNull))
        case Err(e) => Err(e)
        case Ok(items) =>
          Ok(Scan(st.jobs + [JObj(Finished(job.fields, Requirements(items), pageUrl))], st.seen + {id}))
  }

  /** The entries of one page, in order, stopping once a kept job makes `MaxJobsPerSite`. */
  function ScanJobs(st: Scan, entries: seq<Json>, pageUrl: string, show: Json -> string): Result<Scan>
    decreases |entries|
  {
    if entries == [] then Ok(st)
    else
      match Accept(st, entries[0], pageUrl, show)
      case Err(e) => Err(e)
      case Ok(next) =>
        if |next.jobs| > |st.jobs| && |next.jobs| >= MaxJobsPerSite then Ok(next)
        else ScanJobs(next, entries[1..], pageUrl, show)
  }

  /** One page: its entries scanned in order, or the error its fetch or its scan raised. */
  function PageStep(st: Scan, url: string, fetch: string -> Json, show: Json -> string): Result<Scan>
  {
    match PageJobs(fetch(url))
    case Err(e) => Err(e)
    case Ok(entries) => ScanJobs(st, entries, url, show)
  }

  /** The pages at `urls`, in order, stopping once `MaxJobsPerSite` jobs are kept. */
  function ScanPages(st: Scan, urls: seq<string>, fetch: string -> Json, show: Json -> string): Result<Scan>
    decreases |urls|
  {
    if urls == [] then Ok(st)
    else
      match PageStep(st, urls[0], fetch, show)
      case Err(e) => Err(e)
      case Ok(next) =>
        if |next.jobs| >= MaxJobsPerSite then Ok(next)
        else ScanPages(next, urls[1..], fetch, show)
  }

  /** `scrape_job_listings`, with `fetch` for the page scrape and `show` for `str()`. */
  function Scrape(base: string, pages: Option<int>, fetch: string -> Json, show: Json -> string): Result<seq<Json>>
  {
    match ScanPages(Scan([], {}), PageUrls(base, PageCount(pages)), fetch, show)
    case Err(e) => Err(e)
    case Ok(st) => Ok(st.jobs)
  }

  // ---------------------------------------------------------------------------
  // What every kept job satisfies.

  /** A kept job: a complete dict with a url and normalised requirements. */
  predicate JobShaped(job: Json)
  {
    && job.JObj?
    && Complete(job.fields)
    && Has(job.fields, "url")
    && GetOr(job.fields, "requirements", JNull).JArr?
    && AllShaped(GetOr(job.fields, "requirements", JNull).items)
  }

  /** The identifiers of the kept jobs, in order. */
  function Ids(jobs: seq<Json>, show: Json -> string): (r: seq<string>)
    ensures |r| == |jobs|
    ensures forall i | 0 <= i < |jobs| :: r[i] == JobId(jobs[i], show)
  {
    if jobs == [] then [] else Ids(jobs[..|jobs| - 1], show) + [JobId(jobs[|jobs| - 1], show)]
  }

  /** No two kept jobs share an identifier. */
  predicate Distinct(ids: seq<string>)
  {
    forall i, j | 0 <= i < j < |ids| :: ids[i] != ids[j]
  }

  predicate AllJobsShaped(jobs: seq<Json>)
  {
    forall i | 0 <= i < |jobs| :: JobShaped(jobs[i])
  }

  /** At most five jobs, all shaped; the seen set holds exactly their identifiers, each once. */
  predicate Valid(st: Scan, show: Json -> string)
  {
    && |st.jobs| <= MaxJobsPerSite
    && AllJobsShaped(st.jobs)
    && Elems(Ids(st.jobs, show)) == st.seen
    && Distinct(Ids(st.jobs, show))
  }

  /**
   * A finished job is shaped and keeps its identifier. Its "requirements"
   * are the normalised list, its "url" is the page URL unless it had one,
   * and every other field is as it was.
   */
  lemma {:induction false} FinishedShaped(fs: Fields, reqs: seq<Json>, pageUrl: string, show: Json -> string)
    requires Complete(fs) && AllShaped(reqs)
    ensures JobShaped(JObj(Finished(fs, reqs, pageUrl)))
    ensures Identifier(Finished(fs, reqs, pageUrl), show) == Identifier(fs, show)
    ensures GetOr(Finished(fs, reqs, pageUrl), "requirements", JNull) == JArr(reqs)
    ensures !Has(fs, "url") ==> GetOr(Finished(fs, reqs, pageUrl), "url", JNull) == JStr(pageUrl)
    ensures Has(fs, "url") ==> GetOr(Finished(fs, reqs, pageUrl), "url", JNull) == GetOr(fs, "url", JNull)
    ensures forall k | k != "requirements" && k != "url" :: GetOr(Finished(fs, reqs, pageUrl), k, JNull) == GetOr(fs, k, JNull)
    ensures Keys(Finished(fs, reqs, pageUrl)) == Keys(fs) + {"url"}
  {
    var withReqs := Put(fs, "requirements", JArr(reqs));
    assert "requirements" in Keys(fs) by { assert Has(fs, "requirements"); }
    assert GetOr(withReqs, "requirements", JNull) == JArr(reqs);
    assert GetOr(withReqs, "title", JNull) == GetOr(fs, "title", JNull);
    assert GetOr(withReqs, "company", JNull) == GetOr(fs, "company", JNull);
    forall k | k in RequiredKeys
      ensures Has(Finished(fs, reqs, pageUrl), k)
    {
      assert Has(fs, k);
    }
  }

  /**
   * An entry is skipped, leaving the state as it was, when it is not a
   * non-empty complete dict or its identifier was seen. Otherwise it is kept
   * finished, with its identifier recorded, unless its requirements cannot be
   * iterated (TypeError).
   */
  lemma {:induction false} AcceptKeeps(st: Scan, job: Json, pageUrl: string, show: Json -> string)
    ensures !job.JObj? || job.fields == [] || !Complete(job.fields) || Identifier(job.fields, show) in st.seen ==>
      Accept(st, job, pageUrl, show) == Ok(st)
    ensures job.JObj? && job.fields != [] && Complete(job.fields) && Identifier(job.fields, show) !in st.seen ==>
      var items := Iterate(GetOr(job.fields, "requirements", JNull));
      Accept(st, job, pageUrl, show) ==
        if items.Err? then Err(TypeError)
        else Ok(Scan(st.jobs + [JObj(Finished(job.fields, Requirements(items.value), pageUrl))],
                     st.seen + {Identifier(job.fields, show)}))
  {
  }

  /** One entry keeps the state valid below the cap, and only ever appends. */
  lemma {:induction false} AcceptValid(st: Scan, job: Json, pageUrl: string, show: Json -> string)
    requires Valid(st, show) && |st.jobs| < MaxJobsPerSite
    ensures Accept(st, job, pageUrl, show).Ok? ==>
      var next := Accept(st, job, pageUrl, show).value;
      && Valid(next, show)
      && |st.jobs| <= |next.jobs| <= |st.jobs| + 1
      && next.jobs[..|st.jobs|] == st.jobs
  {
    if job.JObj? && job.fields != [] && Complete(job.fields) {
      var id := Identifier(job.fields, show);
      if id !in st.seen {
        var items := Iterate(GetOr(job.fields, "requirements", JNull));
        if items.Ok? {
          var reqs := Requirements(items.value);
          RequirementsSpec(items.value);
          FinishedShaped(job.fields, reqs, pageUrl, show);
          AppendValid(st, JObj(Finished(job.fields, reqs, pageUrl)), id, show);
        }
      }
    }
  }

  /** Keeping a shaped job with a new identifier keeps the state valid. */
  lemma {:induction false} AppendValid(st: Scan, kept: Json, id: string, show: Json -> string)
    requires Valid(st, show) && |st.jobs| < MaxJobsPerSite
    requires JobShaped(kept) && JobId(kept, show) == id && id !in st.seen
    ensures var next := Scan(st.jobs + [kept], st.seen + {id});
      Valid(next, show) && next.jobs[..|st.jobs|] == st.jobs
  {
    var jobs := st.jobs + [kept];
    assert jobs[..|st.jobs|] == st.jobs;
    assert Ids(jobs, show) == Ids(st.jobs, show) + [id];
    ShapedSnoc(st.jobs, kept);
    FreshSnoc(Ids(st.jobs, show), id);
  }

  lemma {:induction false} ShapedSnoc(jobs: seq<Json>, kept: Json)
    requires AllJobsShaped(jobs) && JobShaped(kept)
    ensures AllJobsShaped(jobs + [kept])
  {
    forall i | 0 <= i < |jobs| + 1
      ensures JobShaped((jobs + [kept])[i])
    {
      if i < |jobs| {
        assert (jobs + [kept])[i] == jobs[i];
      }
    }
  }

  lemma {:induction false} FreshSnoc(ids: seq<string>, id: string)
    requires Distinct(ids) && id !in Elems(ids)
    ensures Distinct(ids + [id]) && Elems(ids + [id]) == Elems(ids) + {id}
  {
    forall i, j | 0 <= i < j < |ids| + 1
      ensures (ids + [id])[i] != (ids + [id])[j]
    {
      if j == |ids| {
        assert ids[i] in Elems(ids);
      }
    }
  }

  /** A successful step from `st` ends in a valid state that keeps the jobs of `st` in front. */
  predicate Extends(st: Scan, r: Result<Scan>, show: Json -> string)
  {
    r.Ok? ==> Valid(r.value, show) && |st.jobs| <= |r.value.jobs| && r.value.jobs[..|st.jobs|] == st.jobs
  }

  /** A page's scan keeps the state valid and only appends. */
  lemma {:induction false} ScanJobsValid(st: Scan, entries: seq<Json>, pageUrl: string, show: Json -> string)
    requires Valid(st, show) && |st.jobs| < MaxJobsPerSite
    ensures Extends(st, ScanJobs(st, entries, pageUrl, show), show)
    decreases |entries|
  {
    if entries != [] {
      AcceptValid(st, entries[0], pageUrl, show);
      var r := Accept(st, entries[0], pageUrl, show);
      if r.Ok? && !(|r.value.jobs| > |st.jobs| && |r.value.jobs| >= MaxJobsPerSite) {
        ScanJobsValid(r.value, entries[1..], pageUrl, show);
        ExtendsTrans(st, r.value, ScanJobs(r.value, entries[1..], pageUrl, show), show);
      }
      JobsAfterAccept(st, entries, pageUrl, show);
    }
  }

  lemma ExtendsTrans(st: Scan, mid: Scan, r: Result<Scan>, show: Json -> string)
    requires |st.jobs| <= |mid.jobs| && mid.jobs[..|st.jobs|] == st.jobs
    requires Extends(mid, r, show)
    ensures Extends(st, r, show)
  {
    if r.Ok? {
      assert r.value.jobs[..|st.jobs|] == r.value.jobs[..|mid.jobs|][..|st.jobs|];
    }
  }

  /** After the first entry: its error, the scan once the cap is reached, or the rest of the page. */
  lemma JobsAfterAccept(st: Scan, entries: seq<Json>, pageUrl: string, show: Json -> string)
    requires entries != []
    ensures var r := Accept(st, entries[0], pageUrl, show);
      && (r.Err? ==> ScanJobs(st, entries, pageUrl, show) == Err(r.error))
      && (r.Ok? && |r.value.jobs| > |st.jobs| && |r.value.jobs| >= MaxJobsPerSite ==>
            ScanJobs(st, entries, pageUrl, show) == r)
      && (r.Ok? && !(|r.value.jobs| > |st.jobs| && |r.value.jobs| >= MaxJobsPerSite) ==>
            ScanJobs(st, entries, pageUrl, show) == ScanJobs(r.value, entries[1..], pageUrl, show))
  {
  }

  /** A scan result that, when it succeeds, holds a valid state. */
  predicate ValidResult(r: Result<Scan>, show: Json -> string)
  {
    r.Ok? ==> Valid(r.value, show)
  }

  lemma {:induction false} ScanJobsStaysValid(st: Scan, entries: seq<Json>, pageUrl: string, show: Json -> string)
    requires Valid(st, show) && |st.jobs| < MaxJobsPerSite
    ensures ValidResult(ScanJobs(st, entries, pageUrl, show), show)
  {
    ScanJobsValid(st, entries, pageUrl, show);
  }

  lemma {:induction false} PageStepValid(st: Scan, url: string, fetch: string -> Json, show: Json -> string)
    requires Valid(st, show) && |st.jobs| < MaxJobsPerSite
    ensures ValidResult(PageStep(st, url, fetch, show), show)
  {
    var entries := PageJobs(fetch(url));
    if entries.Ok? {
      ScanJobsStaysValid(st, entries.value, url, show);
    }
  }

  lemma {:induction false} ScanPagesValid(st: Scan, urls: seq<string>, fetch: string -> Json, show: Json -> string)
    requires Valid(st, show) && |st.jobs| < MaxJobsPerSite
    ensures ValidResult(ScanPages(st, urls, fetch, show), show)
    decreases |urls|
  {
    if urls != [] {
      PageStepValid(st, urls[0], fetch, show);
      var next := PageStep(st, urls[0], fetch, show);
      if next.Ok? && |next.value.jobs| < MaxJobsPerSite {
        ScanPagesValid(next.value, urls[1..], fetch, show);
      }
      PagesAfterStep(st, urls, fetch, show);
    }
  }

  /**
   * The jobs of a site: at most `MaxJobsPerSite`, each a complete dict with
   * a url and normalised requirements, no two with the same identifier.
   */
  lemma {:induction false} ScrapeSpec(base: string, pages: Option<int>, fetch: string -> Json, show: Json -> string)
    ensures Scrape(base, pages, fetch, show).Ok? ==>
      var jobs := Scrape(base, pages, fetch, show).value;
      && |jobs| <= MaxJobsPerSite
      && (forall i | 0 <= i < |jobs| :: JobShaped(jobs[i]))
      && Distinct(Ids(jobs, show))
  {
    ScanPagesValid(Scan([], {}), PageUrls(base, PageCount(pages)), fetch, show);
  }

  /**
   * The identifier joins title and company with "_", so a title and a
   * company that split the same text differently count as one job.
   */
  lemma {:induction false} IdentifierJoins(show: Json -> string)
    ensures Identifier([("title", JStr("a_b")), ("company", JStr("c"))], show)
      == Identifier([("title", JStr("a")), ("company", JStr("b_c"))], show)
  {
    assert "a_b" + "_" + "c" == "a" + "_" + "b_c";
  }

  // ---------------------------------------------------------------------------
  // The scraping loops.

  /** `scrape_job_listings` after the fetch: pages in order until five jobs are kept. */
  method ScrapeJobListings(base: string, pages: Option<int>, fetch: string -> Json, show: Json -> string)
    returns (r: Result<seq<Json>>)
    ensures r == Scrape(base, pages, fetch, show)
  {
    var scanned := ScanAllPages(base, PageCount(pages), fetch, show);
    if scanned.Err? {
      return Err(scanned.error);
    }
    return Ok(scanned.value.jobs);
  }

  /** The page loop: pages 1 to `count` in order until `MaxJobsPerSite` jobs are kept. */
  method ScanAllPages(base: string, count: int, fetch: string -> Json, show: Json -> string)
    returns (r: Result<Scan>)
    ensures r == ScanPages(Scan([], {}), PageUrls(base, count), fetch, show)
  {
    var urls := PageUrls(base, count);
    var jobs: seq<Json> := [];
    var seen: set<string> := {};
    var page := 1;
    while page <= count
      invariant 1 <= page <= |urls| + 1
      invariant ScanPages(Scan([], {}), urls, fetch, show)
        == ScanPages(Scan(jobs, seen), urls[page - 1..], fetch, show)
      invariant |jobs| < MaxJobsPerSite
      decreases count - page + 1
    {
      var url := PageUrl(base, page);
      assert urls[page - 1..][0] == url;
      var scanned := ScanOnePage(jobs, seen, url, fetch, show);
      PagesAfterStep(Scan(jobs, seen), urls[page - 1..], fetch, show);
      if scanned.Err? {
        return Err(scanned.error);
      }
      jobs, seen := scanned.value.jobs, scanned.value.seen;
      if |jobs| >= MaxJobsPerSite {
        return Ok(Scan(jobs, seen));
      }
      assert urls[page - 1..][1..] == urls[page..];
      page := page + 1;
    }
    return Ok(Scan(jobs, seen));
  }

  /** One page: fetch it, then scan its entries. */
  method ScanOnePage(jobs: seq<Json>, seen: set<string>, url: string, fetch: string -> Json, show: Json -> string)
    returns (r: Result<Scan>)
    ensures r == PageStep(Scan(jobs, seen), url, fetch, show)
  {
    var entries := PageJobs(fetch(url));
    if entries.Err? {
      return Err(entries.error);
    }
    r := ScanPage(jobs, seen, entries.value, url, show);
  }

  /** After the first page: its error, the scan once it is full, or the pages after it. */
  lemma PagesAfterStep(st: Scan, urls: seq<string>, fetch: string -> Json, show: Json -> string)
    requires urls != []
    ensures var next := PageStep(st, urls[0], fetch, show);
      && (next.Err? ==> ScanPages(st, urls, fetch, show) == Err(next.error))
      && (next.Ok? && |next.value.jobs| >= MaxJobsPerSite ==> ScanPages(st, urls, fetch, show) == next)
      && (next.Ok? && |next.value.jobs| < MaxJobsPerSite ==>
            ScanPages(st, urls, fetch, show) == ScanPages(next.value, urls[1..], fetch, show))
  {
  }

  /** The loop over one page's entries. */
  method ScanPage(jobs: seq<Json>, seen: set<string>, entries: seq<Json>, pageUrl: string, show: Json -> string)
    returns (r: Result<Scan>)
    ensures r == ScanJobs(Scan(jobs, seen), entries, pageUrl, show)
  {
    var kept, ids := jobs, seen;
    var i := 0;
    while i < |entries|
      invariant i <= |entries|
      invariant ScanJobs(Scan(jobs, seen), entries, pageUrl, show)
        == ScanJobs(Scan(kept, ids), entries[i..], pageUrl, show)
    {
      assert entries[i..][1..] == entries[i + 1..];
      var job := entries[i];
      var before := |kept|;
      var accepted := AcceptJob(kept, ids, job, pageUrl, show);
      if accepted.Err? {
        return Err(accepted.error);
      }
      kept, ids := accepted.value.jobs, accepted.value.seen;
      if |kept| > before && |kept| >= MaxJobsPerSite {
        return Ok(Scan(kept, ids));
      }
      i := i + 1;
    }
    return Ok(Scan(kept, ids));
  }

  /** The body of the entry loop: the checks, the requirement loop and the url default. */
  method AcceptJob(jobs: seq<Json>, seen: set<string>, job: Json, pageUrl: string, show: Json -> string)
    returns (r: Result<Scan>)
    ensures r == Accept(Scan(jobs, seen), job, pageUrl, show)
  {
    if !job.JObj? || job.fields == [] || !Complete(job.fields) {
      return Ok(Scan(jobs, seen));
    }
    var id := Identifier(job.fields, show);
    if id in seen {
      return Ok(Scan(jobs, seen));
    }
    var items := Iterate(GetOr(job.fields, "requirements", JNull));
    if items.Err? {
      return Err(items.error);
    }
    var reqs := NormaliseRequirements(items.value);
    var fs := Put(job.fields, "requirements", JArr(reqs));
    if !Has(fs, "url") {
      fs := Put(fs, "url", JStr(pageUrl));
    }
    return Ok(Scan(jobs + [JObj(fs)], seen + {id}));
  }
}

/**
 * `GET /api/jobs/list`: the public job board. Jobs with the requested status (open by
 * default) are filtered by a free-text search, a location and a job type, listed newest
 * first, cut to one page, and returned with the company name, the number of applications
 * and the page count.
 */
module ListJobsRoute {
  import opened Wrappers
  import opened Seqs
  import opened Strings
  import opened Model
  import opened Database

  /**
   * The query string. A parameter that is absent or empty is `None`; `page` and `limit` are
   * the numbers `parseInt` reads.
   */
  datatype Query = Query(
    page: Option<int>, limit: Option<int>, search: Option<string>,
    location: Option<string>, jobType: Option<string>, status: Option<string>)

  /** The query the handler sends to the store: the status, the optional filters, and the range. */
  datatype JobQuery = JobQuery(
    status: string, search: Option<string>, location: Option<string>, jobType: Option<string>,
    offset: int, limit: int)

  /** One job of the response. */
  datatype JobView = JobView(
    id: JobId, title: string, description: string, location: string,
    salary: Option<string>, jobType: Option<string>, experience: Option<string>,
    skills: seq<string>, status: JobStatus, createdAt: int,
    company: string, applicationsCount: nat)

  datatype Listing = Listing(jobs: seq<JobView>, pagination: Pagination)

  function PageOf(q: Query): int { q.page.GetOr(1) }
  function LimitOf(q: Query): int { q.limit.GetOr(12) }

  /** A text filter the handler applies only when the parameter is non-empty. */
  function Filled(o: Option<string>): Option<string>
  {
    if Present(o) then o else None
  }

  /** The query the handler builds, before running it. */
  function QueryOf(q: Query): JobQuery
  {
    JobQuery(OrElse(q.status, "OPEN"), Filled(q.search), Filled(q.location), Filled(q.jobType),
             (PageOf(q) - 1) * LimitOf(q), LimitOf(q))
  }

  /**
   * The filters: the status, then `title` or `description` containing the search text,
   * `location` containing the location text (both ignoring case), and `job_type` equal to
   * the requested type.
   */
  predicate Matches(jq: JobQuery, j: Job)
  {
    && JobStatusName(j.status) == jq.status
    && (jq.search.Some? ==>
          ContainsIgnoringCase(j.title, jq.search.value) || ContainsIgnoringCase(j.description, jq.search.value))
    && (jq.location.Some? ==> ContainsIgnoringCase(j.location, jq.location.value))
    && (jq.jobType.Some? ==> j.jobType == jq.jobType)
  }

  function MatchesOf(jq: JobQuery): Job -> bool { (j: Job) => Matches(jq, j) }

  /** Every matching job, newest first: the rows the exact count counts. */
  function Selected(db: Db, jq: JobQuery): seq<Job>
  {
    Reverse(Filter(db.jobs, MatchesOf(jq)))
  }

  /** The company name read through the recruiter's `users` row, or 'Unknown Company'. */
  function CompanyOf(db: Db, shape: Shape, j: Job): string
  {
    OrElse(CompanyField(RecruiterEmbed(db, j.recruiterId, shape)), "Unknown Company")
  }

  /** One row of the response. */
  function ViewOf(db: Db, shape: Shape, j: Job): JobView
  {
    JobView(j.id, j.title, j.description, j.location, j.salary, j.jobType, j.experience,
            j.skills, j.status, j.createdAt, CompanyOf(db, shape, j), Count(db.apps, AppOfJob(j.id)))
  }

  function ViewIn(db: Db, shape: Shape): Job -> JobView
  {
    (j: Job) => ViewOf(db, shape, j)
  }

  /** The jobs of the requested page: the window of the selected jobs, each as a row. */
  function PageJobs(db: Db, jq: JobQuery, shape: Shape): seq<JobView>
  {
    Map(Window(Selected(db, jq), jq.offset, jq.limit), ViewIn(db, shape))
  }

  /** The response to a query over the database at hand. */
  function Listed(db: Db, q: Query, shape: Shape): Listing
  {
    var jq := QueryOf(q);
    Listing(PageJobs(db, jq, shape),
            PaginationOf(PageOf(q), LimitOf(q), |Selected(db, jq)|))
  }

  /**
   * The handler's answer. A failing query is the parameter `queryError`; a range that starts
   * past the exact count is refused by the store, and that error is answered the same way.
   */
  function Respond(db: Db, q: Query, shape: Shape, queryError: Option<string>): Reply<Listing>
  {
    if queryError.Some? then Fail(500, queryError.value)
    else if RangeRefused(QueryOf(q).offset, |Selected(db, QueryOf(q))|) then Fail(500, RangeNotSatisfiable)
    else Ok(Listed(db, q, shape))
  }

  /**
   * With the store working, the answer is a listing exactly when the offset does not pass the
   * number of matching jobs, and it is 500 otherwise; an offset at that number gives an empty
   * page that still reports the total.
   */
  lemma RefusedPastCount(db: Db, q: Query, shape: Shape)
    ensures var jq := QueryOf(q); var total := |Selected(db, jq)|; var r := Respond(db, q, shape, None);
      && (r.Ok? <==> jq.offset <= total)
      && (!r.Ok? ==> r == Fail(500, RangeNotSatisfiable))
      && (r.Ok? ==> r.body == Listed(db, q, shape))
      && (jq.offset == total ==> r.Ok? && r.body.jobs == [] && r.body.pagination.total == total)
  {
    var jq := QueryOf(q);
    PageIsWindow(db, jq, shape);
  }

  /**
   * A job is selected exactly when it is in the table and passes every filter; without
   * parameters only open jobs are selected, all of them, from the first row.
   */
  lemma SelectedIff(db: Db, q: Query, j: Job)
    ensures j in Selected(db, QueryOf(q)) <==> j in db.jobs && Matches(QueryOf(q), j)
    ensures q == Query(None, None, None, None, None, None) ==>
      && QueryOf(q) == JobQuery("OPEN", None, None, None, 0, 12)
      && (j in Selected(db, QueryOf(q)) <==> j in db.jobs && j.status == OPEN)
  {
    var s := Filter(db.jobs, MatchesOf(QueryOf(q)));
    ReverseMembership(s, j);
    if j in db.jobs && Matches(QueryOf(q), j) {
      var i :| 0 <= i < |db.jobs| && db.jobs[i] == j;
      assert j in s;
    }
  }

  /**
   * The page holds the selected jobs from the query's offset on, in order, at most `limit` of
   * them, and exactly `limit` when that many remain.
   */
  lemma PageIsWindow(db: Db, jq: JobQuery, shape: Shape)
    ensures var sel := Selected(db, jq); var jobs := PageJobs(db, jq, shape);
      && |jobs| <= (if jq.limit < 0 then 0 else jq.limit)
      && (0 <= jq.offset && 0 <= jq.limit && jq.offset + jq.limit <= |sel| ==> |jobs| == jq.limit)
      && (0 <= jq.offset < |sel| && 0 < jq.limit && |sel| < jq.offset + jq.limit ==> |jobs| == |sel| - jq.offset)
      && forall k :: 0 <= k < |jobs| ==>
           0 <= jq.offset + k < |sel| && jobs[k] == ViewOf(db, shape, sel[jq.offset + k])
  {
    ViewWindow(Selected(db, jq), jq.offset, jq.limit, db, shape);
  }

  /** The views of a window of jobs are the views of the jobs from `offset` on. */
  lemma ViewWindow(sel: seq<Job>, offset: int, limit: int, db: Db, shape: Shape)
    ensures var jobs := Map(Window(sel, offset, limit), ViewIn(db, shape));
      && |jobs| <= (if limit < 0 then 0 else limit)
      && (0 <= offset && 0 <= limit && offset + limit <= |sel| ==> |jobs| == limit)
      && (0 <= offset < |sel| && 0 < limit && |sel| < offset + limit ==> |jobs| == |sel| - offset)
      && forall k :: 0 <= k < |jobs| ==> 0 <= offset + k < |sel| && jobs[k] == ViewOf(db, shape, sel[offset + k])
  {
    MapWindow(sel, offset, limit, ViewIn(db, shape));
  }

  /**
   * A new application adds one to the count shown for its own job and leaves every other
   * job's count as it was.
   */
  lemma NewApplicationCounted(db: Db, shape: Shape, j: Job, a: Application)
    ensures var after := ViewOf(db.(apps := db.apps + [a]), shape, j).applicationsCount;
      after == ViewOf(db, shape, j).applicationsCount + (if a.jobId == j.id then 1 else 0)
  {
    FilterConcat(db.apps, [a], AppOfJob(j.id));
  }

  /** In a well-formed database the page lists its jobs newest first. */
  lemma NewestFirst(db: Db, q: Query, shape: Shape)
    requires WellFormed(db)
    ensures var jobs := PageJobs(db, QueryOf(q), shape);
      forall i, k :: 0 <= i < k < |jobs| ==> jobs[i].createdAt > jobs[k].createdAt
  {
    var jq := QueryOf(q);
    FilterIncreasing(db.jobs, MatchesOf(jq), JobCreated);
    ReverseDecreasing(Filter(db.jobs, MatchesOf(jq)), JobCreated);
    WindowDecreasing(Selected(db, jq), jq.offset, jq.limit, JobCreated);
    var w := Window(Selected(db, jq), jq.offset, jq.limit);
    var jobs := PageJobs(db, jq, shape);
    forall i, k | 0 <= i < k < |jobs| ensures jobs[i].createdAt > jobs[k].createdAt {
      assert jobs[i].createdAt == JobCreated(w[i]) && jobs[k].createdAt == JobCreated(w[k]);
    }
  }

  /**
   * The total is the number of matching jobs on every page; with a positive limit the page
   * count is the least number of pages that hold them all, and with a zero limit it is null.
   */
  lemma PaginationCounts(db: Db, q: Query, shape: Shape)
    ensures var p := Listed(db, q, shape).pagination;
      && p.total == |Selected(db, QueryOf(q))|
      && p.page == PageOf(q) && p.limit == LimitOf(q)
      && (p.limit == 0 <==> p.pages.None?)
      && (p.limit > 0 ==> p.pages.value >= 0 && p.pages.value * p.limit >= p.total
                          && (p.pages.value - 1) * p.limit < p.total)
  {
    var p := Listed(db, q, shape).pagination;
    if p.limit > 0 {
      CeilDivIsCeiling(p.total, p.limit);
    }
  }

  /**
   * The company name is found only when the recruiter has a profile with a non-empty name
   * and the profile arrives as an object; in the array shape every job shows 'Unknown Company'.
   */
  lemma CompanyShown(db: Db, j: Job)
    ensures CompanyOf(db, AsArray, j) == "Unknown Company"
    ensures CompanyOf(db, AsObject, j)
         == if UserRow(db, j.recruiterId).Some? && j.recruiterId in db.recruiters
               && db.recruiters[j.recruiterId].companyName != ""
            then db.recruiters[j.recruiterId].companyName else "Unknown Company"
  {
  }

  /**
   * The handler. It builds the query step by step, adding a filter for each non-empty
   * parameter, then runs it; a failing query is the parameter `queryError`.
   */
  method Get(st: Store, q: Query, shape: Shape, queryError: Option<string>) returns (r: Reply<Listing>)
    ensures r == Respond(st.View(), q, shape, queryError)
  {
    var page := q.page.GetOr(1);
    var limit := q.limit.GetOr(12);
    var search := q.search.GetOr("");
    var location := q.location.GetOr("");
    var jobType := q.jobType.GetOr("");
    var status := OrElse(q.status, "OPEN");
    var offset := (page - 1) * limit;

    var query := JobQuery(status, None, None, None, offset, limit);
    if search != "" {
      query := query.(search := Some(search));
    }
    if location != "" {
      query := query.(location := Some(location));
    }
    if jobType != "" {
      query := query.(jobType := Some(jobType));
    }
    assert query == QueryOf(q);

    if queryError.Some? {
      return Fail(500, queryError.value);
    }
    var db := st.View();
    var count := |Selected(db, query)|;
    if offset > count {
      return Fail(500, RangeNotSatisfiable);
    }
    var jobs := Window(Selected(db, query), query.offset, query.limit);
    var formattedJobs := Map(jobs, ViewIn(db, shape));
    return Ok(Listing(formattedJobs, PaginationOf(page, limit, count)));
  }
}

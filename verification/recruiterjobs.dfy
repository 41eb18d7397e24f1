/**
 * `GET /api/recruiter/jobs`: a recruiter's own jobs, newest first, each with its
 * applications counted by status, and totals over all of them.
 */
module RecruiterJobsRoute {
  import opened Wrappers
  import opened Seqs
  import opened Model

  const Forbidden := "Only recruiters can access this"

  /** One job of the response with its applications counted by status. */
  datatype JobSummary = JobSummary(
    id: JobId, title: string, location: string, status: JobStatus, createdAt: int,
    tally: StatusTally)

  /** The `stats` object of the response. */
  datatype Stats = Stats(totalJobs: nat, openJobs: nat, closedJobs: nat, totalApplications: nat)

  datatype Overview = Overview(jobs: seq<JobSummary>, stats: Stats)

  /** The recruiter's jobs, newest first. */
  function OwnJobs(db: Db, uid: UserId): seq<Job>
  {
    Reverse(Filter(db.jobs, JobOfRecruiter(uid)))
  }

  /** A job with its embedded applications, counted by status. */
  function Summary(db: Db, j: Job): JobSummary
  {
    JobSummary(j.id, j.title, j.location, j.status, j.createdAt, Tally(Filter(db.apps, AppOfJob(j.id))))
  }

  function SummaryOf(db: Db): Job -> JobSummary { (j: Job) => Summary(db, j) }

  function SummaryHasStatus(s: JobStatus): JobSummary -> bool { (x: JobSummary) => x.status == s }

  /** `reduce((sum, j) => sum + j.total_applications, 0)` */
  function TotalApps(s: seq<JobSummary>): nat
  {
    if s == [] then 0 else s[0].tally.total + TotalApps(s[1..])
  }

  function StatsOf(s: seq<JobSummary>): Stats
  {
    Stats(|s|, Count(s, SummaryHasStatus(OPEN)), Count(s, SummaryHasStatus(CLOSED)), TotalApps(s))
  }

  /** The handler: the guards, then the summaries; a failing jobs query is `queryError`. */
  function Respond(db: Db, session: Session, queryError: Option<string>): Reply<Overview>
  {
    if session.None? then Fail(401, "Unauthorized")
    else
      var userData := UserRow(db, session.value.id);
      if userData.None? || userData.value.role != RECRUITER then Fail(403, Forbidden)
      else if queryError.Some? then Fail(500, queryError.value)
      else
        var jobs := Map(OwnJobs(db, session.value.id), SummaryOf(db));
        Ok(Overview(jobs, StatsOf(jobs)))
  }

  /** Only a signed-in caller whose `users` row says RECRUITER gets past the guards; an admin gets 403. */
  lemma OnlyRecruiters(db: Db, session: Session, queryError: Option<string>)
    ensures session.None? ==> Respond(db, session, queryError) == Fail(401, "Unauthorized")
    ensures session.Some? && (UserRow(db, session.value.id).None? || UserRow(db, session.value.id).value.role != RECRUITER)
      ==> Respond(db, session, queryError) == Fail(403, Forbidden)
    ensures Respond(db, session, queryError).Ok? <==>
      session.Some? && UserRow(db, session.value.id).Some?
      && UserRow(db, session.value.id).value.role == RECRUITER && queryError.None?
  {
  }

  /**
   * The response lists exactly the caller's jobs, each once, newest first, and every job's
   * status counts add up to its number of applications, which is the number of applications
   * to that job.
   */
  lemma OwnJobsCounted(db: Db, uid: UserId)
    requires WellFormed(db)
    ensures forall j :: j in OwnJobs(db, uid) <==> j in db.jobs && j.recruiterId == uid
    ensures Decreasing(OwnJobs(db, uid), JobCreated)
    ensures Distinct(OwnJobs(db, uid), JobKey)
    ensures forall j :: j in OwnJobs(db, uid) ==>
      var t := Summary(db, j).tally;
      t.total == Count(db.apps, AppOfJob(j.id)) && t.pending + t.viewed + t.shortlisted + t.rejected == t.total
  {
    var own := Filter(db.jobs, JobOfRecruiter(uid));
    forall j ensures j in OwnJobs(db, uid) <==> j in db.jobs && j.recruiterId == uid {
      ReverseMembership(own, j);
      if j in db.jobs && j.recruiterId == uid {
        var i :| 0 <= i < |db.jobs| && db.jobs[i] == j;
      }
    }
    FilterIncreasing(db.jobs, JobOfRecruiter(uid), JobCreated);
    ReverseDecreasing(own, JobCreated);
    FilterDistinct(db.jobs, JobOfRecruiter(uid), JobKey);
    ReverseDistinct(own, JobKey);
    forall j | j in OwnJobs(db, uid)
      ensures var t := Summary(db, j).tally; t.pending + t.viewed + t.shortlisted + t.rejected == t.total
    {
      TallySums(Filter(db.apps, AppOfJob(j.id)));
    }
  }

  /** Open and closed jobs together are all the jobs. */
  lemma {:induction false} OpenPlusClosed(s: seq<JobSummary>)
    ensures StatsOf(s).openJobs + StatsOf(s).closedJobs == StatsOf(s).totalJobs
  {
    var all := (x: JobSummary) => true;
    CountDisjoint(s, SummaryHasStatus(OPEN), SummaryHasStatus(CLOSED), all);
    FilterKeepsAll(s, all);
  }

  /** Counting the applications to a list of jobs splits off the first job's. */
  lemma CountFirstJob(apps: seq<Application>, js: seq<Job>)
    requires Distinct(js, JobKey) && js != []
    ensures Count(apps, AppInJobs(JobIds(js)))
         == Count(apps, AppOfJob(js[0].id)) + Count(apps, AppInJobs(JobIds(js[1..])))
  {
    var rest := js[1..];
    assert JobIds(js) == [js[0].id] + JobIds(rest);
    forall a: Application ensures !(AppOfJob(js[0].id)(a) && AppInJobs(JobIds(rest))(a)) {
      if a.jobId in JobIds(rest) {
        var k :| 0 <= k < |rest| && JobIds(rest)[k] == a.jobId;
        assert JobKey(js[0]) != JobKey(js[k + 1]);
      }
    }
    CountDisjoint(apps, AppOfJob(js[0].id), AppInJobs(JobIds(rest)), AppInJobs(JobIds(js)));
  }

  /**
   * Over jobs with distinct ids, the total of the per-job application counts is the number
   * of applications to any of those jobs: no application is counted twice or missed.
   */
  lemma {:induction false} TotalAppsCountsEachOnce(db: Db, js: seq<Job>)
    requires Distinct(js, JobKey)
    ensures TotalApps(Map(js, SummaryOf(db))) == Count(db.apps, AppInJobs(JobIds(js)))
  {
    if js == [] {
      FilterNone(db.apps, AppInJobs(JobIds(js)));
    } else {
      var f := SummaryOf(db);
      assert Map(js, f)[1..] == Map(js[1..], f);
      TotalAppsCountsEachOnce(db, js[1..]);
      CountFirstJob(db.apps, js);
    }
  }

  /**
   * The stats: the total number of applications is the number of applications to the
   * caller's jobs, and open plus closed jobs is the number of jobs listed.
   */
  lemma StatsOfCaller(db: Db, uid: UserId, queryError: Option<string>)
    requires WellFormed(db)
    requires UserRow(db, uid).Some? && UserRow(db, uid).value.role == RECRUITER && queryError.None?
    ensures var r := Respond(db, Some(AuthUser(uid, None)), queryError);
      && r.Ok?
      && r.body.stats.totalJobs == |OwnJobs(db, uid)|
      && r.body.stats.openJobs + r.body.stats.closedJobs == r.body.stats.totalJobs
      && r.body.stats.totalApplications == Count(db.apps, AppInJobs(JobIds(OwnJobs(db, uid))))
  {
    var own := OwnJobs(db, uid);
    var jobs := Map(own, SummaryOf(db));
    assert Respond(db, Some(AuthUser(uid, None)), queryError) == Ok(Overview(jobs, StatsOf(jobs)));
    FilterDistinct(db.jobs, JobOfRecruiter(uid), JobKey);
    ReverseDistinct(Filter(db.jobs, JobOfRecruiter(uid)), JobKey);
    OpenPlusClosed(jobs);
    TotalAppsCountsEachOnce(db, own);
  }
}

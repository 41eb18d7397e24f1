/**
 * `GET /api/candidate/applications`: a candidate's own applications, newest first, each with
 * its job and company, and the applications counted by status.
 */
module CandidateAppsRoute {
  import opened Wrappers
  import opened Seqs
  import opened Model

  const Forbidden := "Only candidates can access this"

  /** The `job` object of a row; every field is undefined when the job is missing. */
  datatype JobCard = JobCard(
    id: Option<JobId>, title: Option<string>, location: Option<string>,
    salary: Option<string>, jobType: Option<string>, status: Option<JobStatus>,
    company: string)

  /** One row of the response. */
  datatype AppView = AppView(id: AppId, status: AppStatus, appliedAt: int, coverLetter: Option<string>, job: JobCard)

  datatype Overview = Overview(applications: seq<AppView>, stats: StatusTally)

  /** The caller's applications, newest first. */
  function OwnApps(db: Db, uid: UserId): seq<Application>
  {
    Reverse(Filter(db.apps, AppOfCandidate(uid)))
  }

  /** The job of an application with the company read through its recruiter, or 'Unknown'. */
  function CardOf(db: Db, shape: Shape, a: Application): JobCard
  {
    var job := JobRow(db, a.jobId);
    if job.None? then JobCard(None, None, None, None, None, None, "Unknown")
    else
      var j := job.value;
      JobCard(Some(j.id), Some(j.title), Some(j.location), j.salary, j.jobType, Some(j.status),
              OrElse(CompanyField(RecruiterEmbed(db, j.recruiterId, shape)), "Unknown"))
  }

  function ViewOf(db: Db, shape: Shape, a: Application): AppView
  {
    AppView(a.id, a.status, a.appliedAt, a.coverLetter, CardOf(db, shape, a))
  }

  /** The handler's answer; a failing query is `queryError`. */
  function Respond(db: Db, session: Session, shape: Shape, queryError: Option<string>): Reply<Overview>
  {
    if session.None? then Fail(401, "Unauthorized")
    else
      var uid := session.value.id;
      var userData := UserRow(db, uid);
      if userData.None? || userData.value.role != CANDIDATE then Fail(403, Forbidden)
      else if queryError.Some? then Fail(500, queryError.value)
      else
        var apps := OwnApps(db, uid);
        Ok(Overview(Map(apps, (a: Application) => ViewOf(db, shape, a)), Tally(apps)))
  }

  /** Only a signed-in caller whose `users` row says CANDIDATE gets past the guards. */
  lemma OnlyCandidates(db: Db, session: Session, shape: Shape, queryError: Option<string>)
    ensures session.None? ==> Respond(db, session, shape, queryError) == Fail(401, "Unauthorized")
    ensures session.Some? && (UserRow(db, session.value.id).None? || UserRow(db, session.value.id).value.role != CANDIDATE)
      ==> Respond(db, session, shape, queryError) == Fail(403, Forbidden)
    ensures Respond(db, session, shape, queryError).Ok? <==>
      session.Some? && UserRow(db, session.value.id).Some?
      && UserRow(db, session.value.id).value.role == CANDIDATE && queryError.None?
  {
  }

  /**
   * The list holds exactly the caller's applications, newest first, one row per application
   * in the same order, with the application's own id, status and date.
   */
  lemma OwnAppsListed(db: Db, uid: UserId, shape: Shape)
    requires WellFormed(db)
    ensures forall a :: a in OwnApps(db, uid) <==> a in db.apps && a.candidateId == uid
    ensures Decreasing(OwnApps(db, uid), AppApplied)
    ensures var rows := Map(OwnApps(db, uid), (a: Application) => ViewOf(db, shape, a));
      && |rows| == |OwnApps(db, uid)|
      && forall k :: 0 <= k < |rows| ==>
           rows[k].id == OwnApps(db, uid)[k].id && rows[k].status == OwnApps(db, uid)[k].status
           && rows[k].appliedAt == OwnApps(db, uid)[k].appliedAt
  {
    var own := Filter(db.apps, AppOfCandidate(uid));
    forall a ensures a in OwnApps(db, uid) <==> a in db.apps && a.candidateId == uid {
      ReverseMembership(own, a);
      if a in db.apps && a.candidateId == uid {
        var i :| 0 <= i < |db.apps| && db.apps[i] == a;
      }
    }
    FilterIncreasing(db.apps, AppOfCandidate(uid), AppApplied);
    ReverseDecreasing(own, AppApplied);
  }

  /**
   * The stats count the caller's applications: the total is their number, each status count
   * is the number of them with that status, and the four status counts add up to the total.
   */
  lemma StatsCountOwnApps(db: Db, uid: UserId, shape: Shape)
    requires UserRow(db, uid).Some? && UserRow(db, uid).value.role == CANDIDATE
    ensures var t := Respond(db, Some(AuthUser(uid, None)), shape, None).body.stats;
      var own := Filter(db.apps, AppOfCandidate(uid));
      && t.total == Count(db.apps, AppOfCandidate(uid))
      && t.pending == Count(own, AppHasStatus(PENDING))
      && t.viewed == Count(own, AppHasStatus(VIEWED))
      && t.shortlisted == Count(own, AppHasStatus(SHORTLISTED))
      && t.rejected == Count(own, AppHasStatus(REJECTED))
      && t.pending + t.viewed + t.shortlisted + t.rejected == t.total
  {
    var own := Filter(db.apps, AppOfCandidate(uid));
    CountReverse(own, AppHasStatus(PENDING));
    CountReverse(own, AppHasStatus(VIEWED));
    CountReverse(own, AppHasStatus(SHORTLISTED));
    CountReverse(own, AppHasStatus(REJECTED));
    TallySums(Reverse(own));
  }

  /**
   * The company is shown only when the job and its recruiter's profile exist, the name is not
   * empty and the profile arrives as an object; otherwise the row says 'Unknown'.
   */
  lemma CompanyShown(db: Db, a: Application)
    ensures CardOf(db, AsArray, a).company == "Unknown"
    ensures JobRow(db, a.jobId).None? ==> CardOf(db, AsObject, a) == JobCard(None, None, None, None, None, None, "Unknown")
    ensures JobRow(db, a.jobId).Some? ==>
      var r := JobRow(db, a.jobId).value.recruiterId;
      CardOf(db, AsObject, a).company
        == if UserRow(db, r).Some? && r in db.recruiters && db.recruiters[r].companyName != ""
           then db.recruiters[r].companyName else "Unknown"
  {
  }
}

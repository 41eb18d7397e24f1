/**
 * `GET /api/recruiter/applications`: the applications to a recruiter's jobs, newest first,
 * optionally narrowed to one job and to one status, each with its job and its candidate.
 */
module RecruiterAppsRoute {
  import opened Wrappers
  import opened Seqs
  import opened Model
  import opened Database

  const Forbidden := "Only recruiters can access this"

  /** The query string: `job_id` and `status`, `None` when absent or empty. */
  datatype Params = Params(jobId: Option<JobId>, status: Option<string>)

  /** The applications query: the caller's job ids and the optional filters. */
  datatype AppQuery = AppQuery(jobIds: seq<JobId>, jobId: Option<JobId>, status: Option<string>)

  /** The columns of the candidate profile the query selects; `resume_url` is not among them. */
  datatype ProfileBrief = ProfileBrief(
    firstName: Option<string>, lastName: Option<string>, phone: Option<string>, photoUrl: Option<string>)

  /** The joined job: `jobs(id, title, location)`. */
  datatype JobBrief = JobBrief(id: JobId, title: string, location: string)

  /** The `candidate` object of a row. */
  datatype CandidateView = CandidateView(
    id: Option<UserId>, email: string,
    firstName: Option<string>, lastName: Option<string>, phone: Option<string>, photoUrl: Option<string>)

  /** One row of the response. */
  datatype AppView = AppView(
    id: AppId, status: AppStatus, appliedAt: int, resumeUrl: Option<string>,
    coverLetter: Option<string>, job: Option<JobBrief>, candidate: CandidateView)

  predicate Matches(q: AppQuery, a: Application)
  {
    && a.jobId in q.jobIds
    && (q.jobId.Some? ==> a.jobId == q.jobId.value)
    && (q.status.Some? ==> StatusName(a.status) == q.status.value)
  }

  function MatchesOf(q: AppQuery): Application -> bool { (a: Application) => Matches(q, a) }

  /** The matching applications, newest first. */
  function Selected(db: Db, q: AppQuery): seq<Application>
  {
    Reverse(Filter(db.apps, MatchesOf(q)))
  }

  /** The query the handler builds from the caller's job ids and the parameters. */
  function QueryOf(jobIds: seq<JobId>, p: Params): AppQuery
  {
    AppQuery(jobIds, p.jobId, OrNull(p.status))
  }

  function Brief(p: CandidateProfile): ProfileBrief
  {
    ProfileBrief(p.firstName, p.lastName, p.phone, p.photoUrl)
  }

  /** The candidate's profile as selected, embedded under the candidate's `users` row. */
  function ProfileEmbed(db: Db, uid: UserId, shape: Shape): Embed<ProfileBrief>
  {
    var p := CandidateProfileOf(db, uid);
    EmbedAs(if p.Some? then Some(Brief(p.value)) else None, shape)
  }

  /**
   * The `resume_url` of the profile as the query selected it: the column is not selected, so
   * the field is never there.
   */
  function ProfileResume(p: Option<ProfileBrief>): Option<string>
  {
    None
  }

  /** One row: the application, its job, and its candidate with defaults for what is missing. */
  function ViewOf(db: Db, shape: Shape, a: Application): AppView
  {
    var candidate := UserRow(db, a.candidateId);
    var profile := if candidate.Some? then FirstRow(ProfileEmbed(db, a.candidateId, shape)) else None;
    var job := JobRow(db, a.jobId);
    AppView(
      a.id, a.status, a.appliedAt,
      if a.resumeUrl != "" then Some(a.resumeUrl) else OrNull(ProfileResume(profile)),
      a.coverLetter,
      if job.Some? then Some(JobBrief(job.value.id, job.value.title, job.value.location)) else None,
      CandidateView(
        if candidate.Some? then Some(candidate.value.id) else None,
        OrElse(if candidate.Some? then Some(candidate.value.email) else None, "Unknown"),
        if profile.Some? then OrNull(profile.value.firstName) else None,
        if profile.Some? then OrNull(profile.value.lastName) else None,
        if profile.Some? then OrNull(profile.value.phone) else None,
        if profile.Some? then OrNull(profile.value.photoUrl) else None))
  }

  function ViewIn(db: Db, shape: Shape): Application -> AppView
  {
    (a: Application) => ViewOf(db, shape, a)
  }

  /**
   * The handler's answer. The first query, for the caller's job ids, failing is
   * `jobsQueryFails`, which the handler reads as "no jobs"; the second failing is `queryError`.
   */
  function Respond(db: Db, session: Session, shape: Shape, p: Params, jobsQueryFails: bool,
                   queryError: Option<string>): Reply<seq<AppView>>
  {
    if session.None? then Fail(401, "Unauthorized")
    else
      var uid := session.value.id;
      var userData := UserRow(db, uid);
      if userData.None? || userData.value.role != RECRUITER then Fail(403, Forbidden)
      else
        var jobIds := if jobsQueryFails then [] else JobIds(Filter(db.jobs, JobOfRecruiter(uid)));
        if |jobIds| == 0 then Ok([])
        else if queryError.Some? then Fail(500, queryError.value)
        else Ok(Map(Selected(db, QueryOf(jobIds, p)), ViewIn(db, shape)))
  }

  /** The job with that id belongs to the recruiter. */
  ghost predicate OwnJob(db: Db, uid: UserId, id: JobId)
  {
    exists k :: 0 <= k < |db.jobs| && db.jobs[k].id == id && db.jobs[k].recruiterId == uid
  }

  /** Only recruiters get past the guards, and a recruiter without jobs gets an empty list. */
  lemma Guards(db: Db, session: Session, shape: Shape, p: Params, jobsQueryFails: bool, queryError: Option<string>)
    ensures session.None? ==> Respond(db, session, shape, p, jobsQueryFails, queryError) == Fail(401, "Unauthorized")
    ensures session.Some? && (UserRow(db, session.value.id).None? || UserRow(db, session.value.id).value.role != RECRUITER)
      ==> Respond(db, session, shape, p, jobsQueryFails, queryError) == Fail(403, Forbidden)
    ensures session.Some? && UserRow(db, session.value.id).Some? && UserRow(db, session.value.id).value.role == RECRUITER
      && (forall j :: 0 <= j < |db.jobs| ==> db.jobs[j].recruiterId != session.value.id)
      ==> Respond(db, session, shape, p, jobsQueryFails, queryError) == Ok([])
  {
    if session.Some? && forall j :: 0 <= j < |db.jobs| ==> db.jobs[j].recruiterId != session.value.id {
      FilterNone(db.jobs, JobOfRecruiter(session.value.id));
    }
  }

  /** The caller's job ids are exactly the ids of the jobs the caller owns. */
  lemma OwnJobIds(db: Db, uid: UserId, id: JobId)
    ensures id in JobIds(Filter(db.jobs, JobOfRecruiter(uid))) <==> OwnJob(db, uid, id)
  {
    var own := Filter(db.jobs, JobOfRecruiter(uid));
    if id in JobIds(own) {
      var k :| 0 <= k < |own| && JobIds(own)[k] == id;
      assert own[k] in db.jobs;
    }
    if OwnJob(db, uid, id) {
      var k :| 0 <= k < |db.jobs| && db.jobs[k].id == id && db.jobs[k].recruiterId == uid;
      assert db.jobs[k] in own;
      var i :| 0 <= i < |own| && own[i] == db.jobs[k];
      assert JobIds(own)[i] == id;
    }
  }

  /**
   * An application is listed exactly when it is to one of the caller's jobs and passes the
   * job and status filters, which apply together.
   */
  lemma ListedIff(db: Db, uid: UserId, p: Params, a: Application)
    ensures var q := QueryOf(JobIds(Filter(db.jobs, JobOfRecruiter(uid))), p);
      a in Selected(db, q) <==>
        && a in db.apps && OwnJob(db, uid, a.jobId)
        && (p.jobId.Some? ==> a.jobId == p.jobId.value)
        && (Present(p.status) ==> StatusName(a.status) == p.status.value)
  {
    var q := QueryOf(JobIds(Filter(db.jobs, JobOfRecruiter(uid))), p);
    var s := Filter(db.apps, MatchesOf(q));
    ReverseMembership(s, a);
    OwnJobIds(db, uid, a.jobId);
    if a in db.apps && Matches(q, a) {
      var i :| 0 <= i < |db.apps| && db.apps[i] == a;
      assert a in s;
    }
  }

  /** A filter on a job the caller does not own gives an empty list. */
  lemma ForeignJobFilterIsEmpty(db: Db, uid: UserId, p: Params)
    requires p.jobId.Some? && !OwnJob(db, uid, p.jobId.value)
    ensures Selected(db, QueryOf(JobIds(Filter(db.jobs, JobOfRecruiter(uid))), p)) == []
  {
    var q := QueryOf(JobIds(Filter(db.jobs, JobOfRecruiter(uid))), p);
    forall i | 0 <= i < |db.apps| ensures !MatchesOf(q)(db.apps[i]) {
      ListedIff(db, uid, p, db.apps[i]);
    }
    FilterNone(db.apps, MatchesOf(q));
  }

  /** In a well-formed database the list is newest first. */
  lemma NewestFirst(db: Db, q: AppQuery)
    requires WellFormed(db)
    ensures Decreasing(Selected(db, q), AppApplied)
  {
    FilterIncreasing(db.apps, MatchesOf(q), AppApplied);
    ReverseDecreasing(Filter(db.apps, MatchesOf(q)), AppApplied);
  }

  /**
   * A row's resume is the application's own, or null when that is empty: the fallback to the
   * profile's resume never applies, since that column is not selected. A candidate without a
   * `users` row shows as 'Unknown' with null profile fields; otherwise the profile fields are
   * the first profile's, whichever shape it arrives in.
   */
  lemma RowDefaults(db: Db, shape: Shape, a: Application)
    ensures ViewOf(db, shape, a).resumeUrl == (if a.resumeUrl != "" then Some(a.resumeUrl) else None)
    ensures UserRow(db, a.candidateId).None? ==>
      ViewOf(db, shape, a).candidate == CandidateView(None, "Unknown", None, None, None, None)
    ensures UserRow(db, a.candidateId).Some? ==>
      var u := UserRow(db, a.candidateId).value; var v := ViewOf(db, shape, a).candidate;
      && v.id == Some(a.candidateId)
      && v.email == (if u.email != "" then u.email else "Unknown")
    ensures UserRow(db, a.candidateId).Some? && a.candidateId in db.candidates ==>
      var c := db.candidates[a.candidateId]; var v := ViewOf(db, shape, a).candidate;
      && v.firstName == OrNull(c.firstName) && v.lastName == OrNull(c.lastName)
      && v.phone == OrNull(c.phone) && v.photoUrl == OrNull(c.photoUrl)
    ensures UserRow(db, a.candidateId).Some? && a.candidateId !in db.candidates ==>
      var v := ViewOf(db, shape, a).candidate;
      v.firstName == None && v.lastName == None && v.phone == None && v.photoUrl == None
  {
    if UserRow(db, a.candidateId).Some? {
      if a.candidateId in db.candidates {
        FirstRowOfEmbed(Some(Brief(db.candidates[a.candidateId])), shape);
      } else {
        FirstRowOfEmbed<ProfileBrief>(None, shape);
      }
    }
  }

  /**
   * The handler. The applications query is refined by reassignment for each parameter given.
   */
  method Get(st: Store, session: Session, shape: Shape, p: Params, jobsQueryFails: bool,
             queryError: Option<string>) returns (r: Reply<seq<AppView>>)
    ensures r == Respond(st.View(), session, shape, p, jobsQueryFails, queryError)
  {
    if session.None? {
      return Fail(401, "Unauthorized");
    }
    var uid := session.value.id;
    var db := st.View();
    var userData := UserRow(db, uid);
    if userData.None? || userData.value.role != RECRUITER {
      return Fail(403, Forbidden);
    }

    var jobIds: seq<JobId> := [];
    if !jobsQueryFails {
      jobIds := JobIds(Filter(db.jobs, JobOfRecruiter(uid)));
    }
    if |jobIds| == 0 {
      return Ok([]);
    }

    var query := AppQuery(jobIds, None, None);
    if p.jobId.Some? {
      query := query.(jobId := p.jobId);
    }
    if Present(p.status) {
      query := query.(status := p.status);
    }
    assert query == QueryOf(jobIds, p);

    if queryError.Some? {
      return Fail(500, queryError.value);
    }
    var applications := Selected(db, query);
    return Ok(Map(applications, ViewIn(db, shape)));
  }
}

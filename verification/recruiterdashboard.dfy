/**
 * The recruiter dashboard: which status actions and job actions it offers, the job filter
 * over the applications list, and the job form with its submit button.
 */
module RecruiterDashboard {
  import opened Wrappers
  import opened Seqs
  import opened Strings
  import opened Model
  import StatusRoute
  import CreateJobRoute
  import RecruiterAppsRoute

  /** "Mark Viewed" is offered for a pending application only. */
  predicate CanMarkViewed(status: string) { status == "PENDING" }

  /** "Shortlist" and "Reject" are offered until the application is shortlisted or rejected. */
  predicate CanDecide(status: string) { status != "SHORTLISTED" && status != "REJECTED" }

  /** "Close Position" is offered for an open job only. */
  predicate CanClose(status: string) { status == "OPEN" }

  /** The buttons shown for an application with status `from` include a move to `to`. */
  predicate Offered(from: string, to: AppStatus)
  {
    match to
    case PENDING => false
    case VIEWED => CanMarkViewed(from)
    case SHORTLISTED => CanDecide(from)
    case REJECTED => CanDecide(from)
  }

  /** How far along an application is: shortlisted and rejected are both final. */
  function Rank(s: AppStatus): nat
  {
    match s
    case PENDING => 0
    case VIEWED => 1
    case SHORTLISTED => 2
    case REJECTED => 2
  }

  /**
   * The dashboard offers exactly the forward moves: a move is offered if and only if it goes
   * to a later stage. A shortlisted or rejected application offers none.
   */
  lemma OfferedIffForward(from: AppStatus, to: AppStatus)
    ensures Offered(StatusName(from), to) <==> Rank(from) < Rank(to)
    ensures from in {SHORTLISTED, REJECTED} ==> !Offered(StatusName(from), to)
  {
  }

  /** "Close Position" is offered exactly for open jobs. */
  lemma CloseOnlyOpen(s: JobStatus)
    ensures CanClose(JobStatusName(s)) <==> s == OPEN
  {
  }

  /**
   * The forward-only rule lives in the dashboard alone: the server accepts a move back from
   * shortlisted to pending from the job's owner, which the dashboard never offers.
   */
  lemma ServerAcceptsBackwardMove(db: Db, uid: UserId, shape: Shape, id: AppId)
    requires WellFormed(db)
    requires UserRow(db, uid).Some? && UserRow(db, uid).value.role == RECRUITER
    requires StatusRoute.Owns(db, uid, id)
    ensures !Offered(StatusName(SHORTLISTED), PENDING)
    ensures StatusRoute.Decide(db, Some(AuthUser(uid, None)), shape, StatusRoute.Body(Some(id), Some("PENDING")))
         == Ok(StatusRoute.Change(id, PENDING))
  {
    StatusRoute.OwnershipDecides(db, uid, shape, id, PENDING);
  }

  /** An application row whose joined job has the given id. */
  function OnJob(j: JobId): RecruiterAppsRoute.AppView -> bool
  {
    (v: RecruiterAppsRoute.AppView) => v.job.Some? && v.job.value.id == j
  }

  /** `filteredApplications`: every row when no job is selected, else the rows of that job. */
  function FilteredApplications(apps: seq<RecruiterAppsRoute.AppView>, selected: Option<JobId>)
    : seq<RecruiterAppsRoute.AppView>
  {
    if selected.None? then apps else Filter(apps, OnJob(selected.value))
  }

  function ViewOnJob(db: Db, shape: Shape, j: JobId): Application -> bool
  {
    (a: Application) => OnJob(j)(RecruiterAppsRoute.ViewOf(db, shape, a))
  }

  function Both(p: Application -> bool, q: Application -> bool): Application -> bool
  {
    (a: Application) => p(a) && q(a)
  }

  /** For an application to one of the caller's jobs, its row shows that job. */
  lemma RowShowsOwnJob(db: Db, uid: UserId, shape: Shape, a: Application, j: JobId)
    requires Distinct(db.jobs, JobKey)
    requires a.jobId in JobIds(Filter(db.jobs, JobOfRecruiter(uid)))
    ensures ViewOnJob(db, shape, j)(a) <==> a.jobId == j
  {
    RecruiterAppsRoute.OwnJobIds(db, uid, a.jobId);
    var k :| 0 <= k < |db.jobs| && db.jobs[k].id == a.jobId && db.jobs[k].recruiterId == uid;
    JobRowIs(db, a.jobId);
    var job := db.jobs[k];
    assert JobRow(db, a.jobId) == Some(job);
    var v := RecruiterAppsRoute.ViewOf(db, shape, a);
    assert v.job == Some(RecruiterAppsRoute.JobBrief(a.jobId, job.title, job.location));
    assert ViewOnJob(db, shape, j)(a) == OnJob(j)(v);
  }

  /**
   * Filtering the full list by a job in the dashboard gives the same rows, in the same order,
   * as asking the server for that job with `job_id`.
   */
  lemma ClientFilterMatchesServer(db: Db, uid: UserId, shape: Shape, j: JobId)
    requires WellFormed(db)
    requires UserRow(db, uid).Some? && UserRow(db, uid).value.role == RECRUITER
    ensures var all := RecruiterAppsRoute.Respond(db, Some(AuthUser(uid, None)), shape,
                                                  RecruiterAppsRoute.Params(None, None), false, None);
      var one := RecruiterAppsRoute.Respond(db, Some(AuthUser(uid, None)), shape,
                                            RecruiterAppsRoute.Params(Some(j), None), false, None);
      all.Ok? && one.Ok? && FilteredApplications(all.body, Some(j)) == one.body
  {
    var session := Some(AuthUser(uid, None));
    var ids := JobIds(Filter(db.jobs, JobOfRecruiter(uid)));
    var all := RecruiterAppsRoute.Respond(db, session, shape, RecruiterAppsRoute.Params(None, None), false, None);
    var one := RecruiterAppsRoute.Respond(db, session, shape, RecruiterAppsRoute.Params(Some(j), None), false, None);
    if |ids| > 0 {
      var f0 := Filter(db.apps, RecruiterAppsRoute.MatchesOf(RecruiterAppsRoute.QueryOf(ids, RecruiterAppsRoute.Params(None, None))));
      var f1 := Filter(db.apps, RecruiterAppsRoute.MatchesOf(RecruiterAppsRoute.QueryOf(ids, RecruiterAppsRoute.Params(Some(j), None))));
      var view := RecruiterAppsRoute.ViewIn(db, shape);
      assert all == Ok(Map(Reverse(f0), view));
      assert one == Ok(Map(Reverse(f1), view));
      FilterMap(Reverse(f0), view, OnJob(j), ViewOnJob(db, shape, j));
      FilterReverse(f0, ViewOnJob(db, shape, j));
      NarrowedToJob(db, uid, shape, j, ids);
      assert Filter(Map(Reverse(f0), view), OnJob(j)) == Map(Reverse(f1), view);
    } else {
      assert all == Ok([]) && one == Ok([]);
    }
  }

  /** Among the caller's applications, those whose row shows the job are those the `job_id` query selects. */
  lemma NarrowedToJob(db: Db, uid: UserId, shape: Shape, j: JobId, ids: seq<JobId>)
    requires WellFormed(db) && ids == JobIds(Filter(db.jobs, JobOfRecruiter(uid)))
    ensures Filter(Filter(db.apps, RecruiterAppsRoute.MatchesOf(RecruiterAppsRoute.QueryOf(ids, RecruiterAppsRoute.Params(None, None)))),
                   ViewOnJob(db, shape, j))
         == Filter(db.apps, RecruiterAppsRoute.MatchesOf(RecruiterAppsRoute.QueryOf(ids, RecruiterAppsRoute.Params(Some(j), None))))
  {
    var m0 := RecruiterAppsRoute.MatchesOf(RecruiterAppsRoute.QueryOf(ids, RecruiterAppsRoute.Params(None, None)));
    var m1 := RecruiterAppsRoute.MatchesOf(RecruiterAppsRoute.QueryOf(ids, RecruiterAppsRoute.Params(Some(j), None)));
    var onJob := ViewOnJob(db, shape, j);
    FilterFilter(db.apps, m0, onJob, Both(m0, onJob));
    forall i | 0 <= i < |db.apps| ensures Both(m0, onJob)(db.apps[i]) == m1(db.apps[i]) {
      var a := db.apps[i];
      if a.jobId in ids {
        RowShowsOwnJob(db, uid, shape, a, j);
      }
    }
    CountSame(db.apps, Both(m0, onJob), m1);
  }

  /** The fields of the job form, as typed. */
  datatype FormValues = FormValues(
    title: string, description: string, location: string,
    salary: string, jobType: string, experience: string, skills: string)

  const EmptyForm := FormValues("", "", "", "", "", "", "")

  /** The request body the form sends: every field as typed, and the skills split on commas. */
  function Request(f: FormValues): CreateJobRoute.Body
  {
    CreateJobRoute.Body(Some(f.title), Some(f.description), Some(f.location),
                        Some(f.salary), Some(f.jobType), Some(f.experience),
                        CreateJobRoute.SkillList(SplitTrimNonEmpty(f.skills)))
  }

  /** "Post Job" is disabled while creating and while a required field is empty. */
  predicate PostDisabled(isCreating: bool, f: FormValues)
  {
    isCreating || f.title == "" || f.description == "" || f.location == ""
  }

  /**
   * For a recruiter the button is enabled exactly when the server accepts the request; a
   * request it would have blocked gets the server's 400. The skills the server stores are
   * the ones it would split out of the same text, and an empty salary is stored as null.
   */
  lemma ButtonMatchesServerGuard(db: Db, user: AuthUser, f: FormValues)
    requires CreateJobRoute.EffectiveRole(db, user) == Some("RECRUITER")
    ensures !PostDisabled(false, f) <==> CreateJobRoute.Decide(db, Some(user), Request(f)).Ok?
    ensures PostDisabled(false, f) ==>
      CreateJobRoute.Decide(db, Some(user), Request(f)) == Fail(400, "Title, description, and location are required")
    ensures !PostDisabled(false, f) ==>
      var d := CreateJobRoute.Decide(db, Some(user), Request(f)).body;
      && d.skills == CreateJobRoute.NormalizeSkills(CreateJobRoute.SkillText(f.skills))
      && d.salary == (if f.salary == "" then None else Some(f.salary))
      && d.title == f.title && d.description == f.description && d.location == f.location
  {
  }

  /** The dashboard's own state: the job form, the busy flag, the dialog and the job filter. */
  class Dashboard {
    var newJob: FormValues
    var isCreating: bool
    var dialogOpen: bool
    var selectedJob: Option<JobId>

    constructor ()
      ensures newJob == EmptyForm && !isCreating && !dialogOpen && selectedJob.None?
    {
      newJob := EmptyForm;
      isCreating := false;
      dialogOpen := false;
      selectedJob := None;
    }

    /**
     * `handleCreateJob`: sends the form; whether the server refuses or the request fails is
     * `createFails`. On success the dialog closes and every field is reset to ""; on failure
     * the form is kept. Either way the busy flag ends cleared and the filter is untouched.
     */
    method CreateJob(createFails: bool) returns (sent: CreateJobRoute.Body)
      modifies this
      ensures sent == Request(old(newJob))
      ensures !createFails ==> newJob == EmptyForm && !dialogOpen
      ensures createFails ==> newJob == old(newJob) && dialogOpen == old(dialogOpen)
      ensures !isCreating && selectedJob == old(selectedJob)
    {
      isCreating := true;
      sent := Request(newJob);
      if !createFails {
        dialogOpen := false;
        newJob := EmptyForm;
      }
      isCreating := false;
    }
  }
}

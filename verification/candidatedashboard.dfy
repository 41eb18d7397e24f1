/**
 * The candidate dashboard: notifications derived from the applications, the job search box,
 * and the list update after a successful application.
 */
module CandidateDashboard {
  import opened Wrappers
  import opened Seqs
  import opened Strings
  import opened Model
  import CandidateAppsRoute
  import ListJobsRoute

  type AppView = CandidateAppsRoute.AppView
  type JobView = ListJobsRoute.JobView

  /** One notification: the application it is about, its status, its text, and whether it was read. */
  datatype Notification = Notification(id: AppId, kind: AppStatus, message: string, read: bool, createdAt: int)

  /** A job title as a template literal prints it: a missing title prints as 'undefined'. */
  function TitleText(title: Option<string>): string
  {
    if title.Some? then title.value else "undefined"
  }

  /** `getNotificationMessage` */
  function Message(status: AppStatus, title: string, company: string): string
  {
    match status
    case VIEWED => "Your application for " + title + " at " + company + " has been viewed"
    case SHORTLISTED => "\U{1F389} Great news! You've been shortlisted for " + title + " at " + company
    case REJECTED => "Your application for " + title + " at " + company + " was not selected"
    case PENDING => "Application status updated for " + title
  }

  /** Every message names the job, and every message about a decision names the company too. */
  lemma MessageNames(status: AppStatus, title: string, company: string)
    ensures Contains(Message(status, title, company), title)
    ensures status != PENDING ==> Contains(Message(status, title, company), company)
  {
    var m := Message(status, title, company);
    match status
    case VIEWED =>
      var k := |"Your application for "|;
      assert m[k..k + |title|] == title;
      ContainsAt(m, title, k);
      var c := k + |title| + |" at "|;
      assert m[c..c + |company|] == company;
      ContainsAt(m, company, c);
    case SHORTLISTED =>
      var k := |"\U{1F389} Great news! You've been shortlisted for "|;
      assert m[k..k + |title|] == title;
      ContainsAt(m, title, k);
      var c := k + |title| + |" at "|;
      assert m[c..] == company;
      ContainsAt(m, company, c);
    case REJECTED =>
      var k := |"Your application for "|;
      assert m[k..k + |title|] == title;
      ContainsAt(m, title, k);
      var c := k + |title| + |" at "|;
      assert m[c..c + |company|] == company;
      ContainsAt(m, company, c);
    case PENDING =>
      var k := |"Application status updated for "|;
      assert m[k..] == title;
      ContainsAt(m, title, k);
  }

  function NotPending(a: AppView): bool { a.status != PENDING }

  function NotificationOf(a: AppView): Notification
  {
    Notification(a.id, a.status, Message(a.status, TitleText(a.job.title), a.job.company), false, a.appliedAt)
  }

  /** The notifications: one per application that is no longer pending. */
  function Notifications(apps: seq<AppView>): seq<Notification>
  {
    Map(Filter(apps, NotPending), NotificationOf)
  }

  function Unread(n: Notification): bool { !n.read }

  /** `unreadNotifications` */
  function UnreadCount(ns: seq<Notification>): nat
  {
    Count(ns, Unread)
  }

  /**
   * There is one notification per non-pending application, in the order of the applications,
   * carrying the application's id and status; all start unread, so the unread badge shows
   * the number of non-pending applications.
   */
  lemma NotificationsOfDecided(apps: seq<AppView>)
    ensures var ns := Notifications(apps); var decided := Filter(apps, NotPending);
      && |ns| == Count(apps, NotPending)
      && (forall k :: 0 <= k < |ns| ==>
            ns[k].id == decided[k].id && ns[k].kind == decided[k].status
            && ns[k].kind != PENDING && !ns[k].read)
      && UnreadCount(ns) == Count(apps, NotPending)
  {
    var ns := Notifications(apps);
    FilterKeepsAll(ns, Unread);
  }

  /**
   * For the list the applications endpoint returns, the number of notifications is the number
   * of applications minus the pending ones in the endpoint's stats.
   */
  lemma NotificationCountFromStats(db: Db, uid: UserId, shape: Shape)
    requires UserRow(db, uid).Some? && UserRow(db, uid).value.role == CANDIDATE
    ensures var o := CandidateAppsRoute.Respond(db, Some(AuthUser(uid, None)), shape, None).body;
      |Notifications(o.applications)| == o.stats.total - o.stats.pending
  {
    var own := CandidateAppsRoute.OwnApps(db, uid);
    var view := (a: Application) => CandidateAppsRoute.ViewOf(db, shape, a);
    var rows := Map(own, view);
    var notPendingApp := (a: Application) => a.status != PENDING;
    var any := (a: Application) => true;
    FilterMap(own, view, NotPending, notPendingApp);
    CountDisjoint(own, AppHasStatus(PENDING), notPendingApp, any);
    FilterKeepsAll(own, any);
  }

  /** A job the search box keeps: its title, company or location contains the query, ignoring case. */
  function MatchesQuery(query: string): JobView -> bool
  {
    (j: JobView) => ContainsIgnoringCase(j.title, query) || ContainsIgnoringCase(j.company, query)
                    || ContainsIgnoringCase(j.location, query)
  }

  /** `filteredJobs` */
  function FilteredJobs(jobs: seq<JobView>, query: string): seq<JobView>
  {
    Filter(jobs, MatchesQuery(query))
  }

  /**
   * The search keeps exactly the jobs whose title, company or location contains the query,
   * ignoring case, in their order; an empty query keeps every job.
   */
  lemma FilteredJobsIff(jobs: seq<JobView>, query: string, j: JobView)
    ensures j in FilteredJobs(jobs, query) <==> j in jobs && MatchesQuery(query)(j)
    ensures FilteredJobs(jobs, "") == jobs
  {
    if j in jobs && MatchesQuery(query)(j) {
      var i :| 0 <= i < |jobs| && jobs[i] == j;
    }
    forall i | 0 <= i < |jobs| ensures MatchesQuery("")(jobs[i]) {
      EmptyQueryMatches(jobs[i].title);
    }
    FilterKeepsAll(jobs, MatchesQuery(""));
  }

  /** The jobs list without the job with that id. */
  function Without(jobs: seq<JobView>, id: JobId): seq<JobView>
  {
    Filter(jobs, (j: JobView) => j.id != id)
  }

  /** Removing a job drops every entry with its id and keeps every other entry. */
  lemma WithoutIff(jobs: seq<JobView>, id: JobId, j: JobView)
    ensures j in Without(jobs, id) <==> j in jobs && j.id != id
    ensures |Without(jobs, id)| <= |jobs|
    ensures (forall i :: 0 <= i < |jobs| ==> jobs[i].id != id) ==> Without(jobs, id) == jobs
  {
    if j in jobs && j.id != id {
      var i :| 0 <= i < |jobs| && jobs[i] == j;
    }
    if forall i :: 0 <= i < |jobs| ==> jobs[i].id != id {
      FilterKeepsAll(jobs, (x: JobView) => x.id != id);
    }
  }

  /** The dashboard's own state: the job list, the job being applied to, and the dialog. */
  class Dashboard {
    var jobs: seq<JobView>
    var selectedJob: Option<JobView>
    var coverLetter: string
    var applyDialogOpen: bool
    var isApplying: bool

    constructor (loaded: seq<JobView>)
      ensures jobs == loaded && selectedJob.None? && coverLetter == "" && !applyDialogOpen && !isApplying
    {
      jobs := loaded;
      selectedJob := None;
      coverLetter := "";
      applyDialogOpen := false;
      isApplying := false;
    }

    /** `openApplyDialog` */
    method OpenApply(job: JobView)
      modifies this
      ensures selectedJob == Some(job) && coverLetter == "" && applyDialogOpen
      ensures jobs == old(jobs) && isApplying == old(isApplying)
    {
      selectedJob := Some(job);
      coverLetter := "";
      applyDialogOpen := true;
    }

    /**
     * `handleApply`: nothing happens without a selected job. Otherwise the application is
     * sent; whether the server refuses or the request fails is `applyFails`. On success the
     * dialog closes and exactly the applied job leaves the list; on failure the list and the
     * dialog stay as they were.
     */
    method HandleApply(applyFails: bool) returns (sent: Option<JobId>)
      modifies this
      ensures old(selectedJob).None? ==> sent.None? && jobs == old(jobs) && applyDialogOpen == old(applyDialogOpen)
      ensures old(selectedJob).Some? ==>
        && sent == Some(old(selectedJob).value.id) && !isApplying
        && (!applyFails ==> jobs == Without(old(jobs), old(selectedJob).value.id) && !applyDialogOpen)
        && (applyFails ==> jobs == old(jobs) && applyDialogOpen == old(applyDialogOpen))
      ensures selectedJob == old(selectedJob) && coverLetter == old(coverLetter)
    {
      if selectedJob.None? {
        return None;
      }
      isApplying := true;
      sent := Some(selectedJob.value.id);
      if !applyFails {
        applyDialogOpen := false;
        jobs := Without(jobs, selectedJob.value.id);
      }
      isApplying := false;
    }
  }
}

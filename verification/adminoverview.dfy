/**
 * `GET /api/admin/overview`: platform-wide counts, the five newest users and jobs, and for
 * each of those jobs its company and number of applications. Every store read may fail on
 * its own; a failed count reads as 0 and a failed list as empty.
 */
module AdminOverviewRoute {
  import opened Wrappers
  import opened Seqs
  import opened Model
  import opened AdminAuth

  /** The separate store reads the handler makes. */
  datatype Fetch =
    | TotalUsers | TotalCandidates | TotalRecruiters | TotalJobs | OpenJobs | ClosedJobs
    | TotalApps | PendingApps | ViewedApps | ShortlistedApps | RejectedApps
    | RecentUsers | RecentJobs | CompanyNames | AppJobIds

  /** The `stats` object. */
  datatype Stats = Stats(
    totalUsers: nat, totalCandidates: nat, totalRecruiters: nat,
    totalJobs: nat, openJobs: nat, closedJobs: nat, totalApplications: nat,
    applicationStatus: StatusCounts)

  /** The `application_status` object: one count per status. */
  datatype StatusCounts = StatusCounts(pending: nat, viewed: nat, shortlisted: nat, rejected: nat)

  /** One of the recent jobs. */
  datatype RecentJob = RecentJob(id: JobId, title: string, status: JobStatus, createdAt: int,
                                 company: string, applicationsCount: nat)

  datatype Overview = Overview(stats: Stats, recentUsers: seq<User>, recentJobs: seq<RecentJob>)

  /** A count that reads as 0 when its read failed (`count || 0`). */
  function CountOr(failed: set<Fetch>, f: Fetch, n: nat): nat
  {
    if f in failed then 0 else n
  }

  function StatsOf(db: Db, failed: set<Fetch>): Stats
  {
    Stats(
      CountOr(failed, TotalUsers, |db.users|),
      CountOr(failed, TotalCandidates, Count(db.users, UserHasRole(CANDIDATE))),
      CountOr(failed, TotalRecruiters, Count(db.users, UserHasRole(RECRUITER))),
      CountOr(failed, TotalJobs, |db.jobs|),
      CountOr(failed, OpenJobs, Count(db.jobs, JobHasStatus(OPEN))),
      CountOr(failed, ClosedJobs, Count(db.jobs, JobHasStatus(CLOSED))),
      CountOr(failed, TotalApps, |db.apps|),
      StatusCounts(
        CountOr(failed, PendingApps, Count(db.apps, AppHasStatus(PENDING))),
        CountOr(failed, ViewedApps, Count(db.apps, AppHasStatus(VIEWED))),
        CountOr(failed, ShortlistedApps, Count(db.apps, AppHasStatus(SHORTLISTED))),
        CountOr(failed, RejectedApps, Count(db.apps, AppHasStatus(REJECTED)))))
  }

  /** `.order('created_at', { ascending: false }).limit(5)` */
  function Newest<T>(rows: seq<T>): seq<T>
  {
    Take(Reverse(rows), 5)
  }

  /**
   * A recent job: the company of the profile whose `user_id` is the job's recruiter, else
   * 'Unknown', and the number of applications to the job.
   */
  function RecentJobOf(db: Db, failed: set<Fetch>, j: Job): RecentJob
  {
    var profile := if CompanyNames in failed then None else RecruiterProfileOf(db, j.recruiterId);
    RecentJob(j.id, j.title, j.status, j.createdAt,
              OrElse(if profile.Some? then Some(profile.value.companyName) else None, "Unknown"),
              CountOr(failed, AppJobIds, Count(db.apps, AppOfJob(j.id))))
  }

  /** The handler's answer; `failed` names the reads that failed. */
  function Respond(db: Db, header: Option<Token>, session: Session, failed: set<Fetch>): Reply<Overview>
  {
    if Verify(db, header, session).Denied? then Fail(401, "Unauthorized - Admin access required")
    else
      Ok(Overview(
        StatsOf(db, failed),
        RecentUsersOf(db, failed), RecentJobsOf(db, failed)))
  }

  function RecentUsersOf(db: Db, failed: set<Fetch>): seq<User>
  {
    if RecentUsers in failed then [] else Newest(db.users)
  }

  function RecentJobsOf(db: Db, failed: set<Fetch>): seq<RecentJob>
  {
    if RecentJobs in failed then [] else Map(Newest(db.jobs), (j: Job) => RecentJobOf(db, failed, j))
  }

  /** Without admin access the answer is 401, whatever else holds. */
  lemma AdminOnly(db: Db, header: Option<Token>, session: Session, failed: set<Fetch>)
    ensures Respond(db, header, session, failed).Ok? <==> Verify(db, header, session).Granted?
    ensures Verify(db, header, session).Denied? ==>
      Respond(db, header, session, failed) == Fail(401, "Unauthorized - Admin access required")
  {
  }

  /**
   * Each count is 0 when its read failed and the true count otherwise; with every status
   * read and the total read working, the four status counts add up to the total, and with
   * the job reads working, open plus closed jobs is the number of jobs.
   */
  lemma CountsOrZero(db: Db, failed: set<Fetch>)
    ensures var s := StatsOf(db, failed);
      && s.totalUsers == (if TotalUsers in failed then 0 else |db.users|)
      && s.totalCandidates == (if TotalCandidates in failed then 0 else Count(db.users, UserHasRole(CANDIDATE)))
      && s.totalRecruiters == (if TotalRecruiters in failed then 0 else Count(db.users, UserHasRole(RECRUITER)))
      && s.totalJobs == (if TotalJobs in failed then 0 else |db.jobs|)
      && s.openJobs == (if OpenJobs in failed then 0 else Count(db.jobs, JobHasStatus(OPEN)))
      && s.closedJobs == (if ClosedJobs in failed then 0 else Count(db.jobs, JobHasStatus(CLOSED)))
      && s.totalApplications == (if TotalApps in failed then 0 else |db.apps|)
      && s.applicationStatus.pending == (if PendingApps in failed then 0 else Count(db.apps, AppHasStatus(PENDING)))
      && s.applicationStatus.viewed == (if ViewedApps in failed then 0 else Count(db.apps, AppHasStatus(VIEWED)))
      && s.applicationStatus.shortlisted == (if ShortlistedApps in failed then 0 else Count(db.apps, AppHasStatus(SHORTLISTED)))
      && s.applicationStatus.rejected == (if RejectedApps in failed then 0 else Count(db.apps, AppHasStatus(REJECTED)))
      && (failed !! {TotalApps, PendingApps, ViewedApps, ShortlistedApps, RejectedApps} ==>
            s.applicationStatus.pending + s.applicationStatus.viewed + s.applicationStatus.shortlisted
              + s.applicationStatus.rejected == s.totalApplications)
      && (failed !! {TotalJobs, OpenJobs, ClosedJobs} ==> s.openJobs + s.closedJobs == s.totalJobs)
      && (failed !! {TotalUsers, TotalCandidates, TotalRecruiters} ==> s.totalCandidates + s.totalRecruiters <= s.totalUsers)
  {
    TallySums(db.apps);
    var all := (j: Job) => true;
    CountDisjoint(db.jobs, JobHasStatus(OPEN), JobHasStatus(CLOSED), all);
    FilterKeepsAll(db.jobs, all);
    var staff := (u: User) => u.role == CANDIDATE || u.role == RECRUITER;
    CountDisjoint(db.users, UserHasRole(CANDIDATE), UserHasRole(RECRUITER), staff);
  }

  /** The newest rows of an oldest-first table are its last five, last first. */
  lemma NewestAreLast<T>(rows: seq<T>, key: T -> int)
    requires Increasing(rows, key)
    ensures |Newest(rows)| == (if |rows| < 5 then |rows| else 5)
    ensures forall i :: 0 <= i < |Newest(rows)| ==> Newest(rows)[i] == rows[|rows| - 1 - i]
    ensures Decreasing(Newest(rows), key)
  {
    var r := Reverse(rows);
    ReverseDecreasing(rows, key);
    var t := Take(r, 5);
    forall i, j | 0 <= i < j < |t| ensures key(t[i]) > key(t[j]) {
      assert t[i] == r[i] && t[j] == r[j];
    }
  }

  /**
   * The recent lists hold the five newest rows, or all rows when there are fewer, newest
   * first in a well-formed database, and nothing when their read failed.
   */
  lemma RecentAreNewest(db: Db, failed: set<Fetch>)
    requires WellFormed(db)
    ensures var users := RecentUsersOf(db, failed); var jobs := RecentJobsOf(db, failed);
      && (RecentUsers in failed ==> users == [])
      && (RecentUsers !in failed ==>
            && |users| == (if |db.users| < 5 then |db.users| else 5)
            && (forall i :: 0 <= i < |users| ==> users[i] == db.users[|db.users| - 1 - i])
            && Decreasing(users, UserCreated))
      && (RecentJobs in failed ==> jobs == [])
      && (RecentJobs !in failed ==>
            && |jobs| == (if |db.jobs| < 5 then |db.jobs| else 5)
            && forall i :: 0 <= i < |jobs| ==> jobs[i].id == db.jobs[|db.jobs| - 1 - i].id)
  {
    NewestAreLast(db.users, UserCreated);
    NewestAreLast(db.jobs, JobCreated);
    if RecentJobs !in failed {
      var n := Newest(db.jobs);
      var jobs := RecentJobsOf(db, failed);
      forall i | 0 <= i < |jobs| ensures jobs[i].id == db.jobs[|db.jobs| - 1 - i].id {
        assert jobs[i] == RecentJobOf(db, failed, n[i]);
      }
    }
  }

  /**
   * A recent job names its recruiter's company when the recruiter has a profile with a
   * non-empty name and the profile read worked, and 'Unknown' otherwise; its count is the
   * number of applications to it.
   */
  lemma RecentJobFields(db: Db, failed: set<Fetch>, j: Job)
    ensures var r := RecentJobOf(db, failed, j);
      && r.company == (if CompanyNames !in failed && j.recruiterId in db.recruiters
                            && db.recruiters[j.recruiterId].companyName != ""
                         then db.recruiters[j.recruiterId].companyName else "Unknown")
      && r.applicationsCount == (if AppJobIds in failed then 0 else Count(db.apps, AppOfJob(j.id)))
      && r.id == j.id && r.title == j.title && r.status == j.status && r.createdAt == j.createdAt
  {
  }
}

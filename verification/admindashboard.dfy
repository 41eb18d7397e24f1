/**
 * The admin dashboard: the "time ago" labels of the overview, the Recent Jobs card, the
 * Candidates and Recruiters tabs, and the name and details columns of the users table.
 */
module AdminDashboard {
  import opened Wrappers
  import opened Seqs
  import opened Strings
  import opened Model
  import AdminUsersRoute
  import AdminOverviewRoute

  type UserView = AdminUsersRoute.UserView

  /**
   * `getTimeAgo` of a difference `now - date` in milliseconds: seconds, minutes, hours and
   * days, each the floor of the previous unit.
   */
  function TimeAgo(elapsedMs: int): string
  {
    var seconds := elapsedMs / 1000;
    if seconds < 60 then "just now"
    else
      var minutes := seconds / 60;
      if minutes < 60 then IntToString(minutes) + "m ago"
      else
        var hours := minutes / 60;
        if hours < 24 then IntToString(hours) + "h ago"
        else IntToString(hours / 24) + "d ago"
  }

  /**
   * The labels stated on the difference itself: the floors taken step by step are the floors
   * of the whole difference, so under a minute (or in the future) is 'just now', then whole
   * minutes, whole hours and whole days.
   */
  lemma TimeAgoBuckets(ms: int)
    ensures ms < 60000 ==> TimeAgo(ms) == "just now"
    ensures 60000 <= ms < 3600000 ==> TimeAgo(ms) == NatToString(ms / 60000) + "m ago"
    ensures 3600000 <= ms < 86400000 ==> TimeAgo(ms) == NatToString(ms / 3600000) + "h ago"
    ensures 86400000 <= ms ==> TimeAgo(ms) == NatToString(ms / 86400000) + "d ago"
  {
    var s := ms / 1000;
    var m := s / 60;
    var h := m / 60;
    assert m == ms / 60000;
    assert h == ms / 3600000;
    assert h / 24 == ms / 86400000;
  }

  /** The Recent Jobs card: the first four of the overview's recent jobs. */
  function RecentCard(jobs: seq<AdminOverviewRoute.RecentJob>): seq<AdminOverviewRoute.RecentJob>
  {
    Take(jobs, 4)
  }

  /** The card shows the four newest jobs of the store, newest first. */
  lemma RecentCardNewest(db: Db, failed: set<AdminOverviewRoute.Fetch>)
    requires WellFormed(db) && AdminOverviewRoute.RecentJobs !in failed
    ensures var card := RecentCard(AdminOverviewRoute.RecentJobsOf(db, failed));
      && |card| == (if |db.jobs| < 4 then |db.jobs| else 4)
      && forall i :: 0 <= i < |card| ==> card[i].id == db.jobs[|db.jobs| - 1 - i].id
  {
    AdminOverviewRoute.NewestAreLast(db.jobs, JobCreated);
  }

  function HasRole(r: Role): UserView -> bool { (u: UserView) => u.role == r }

  /** The Candidates tab. */
  function CandidatesTab(users: seq<UserView>): seq<UserView> { Filter(users, HasRole(CANDIDATE)) }

  /** The Recruiters tab. */
  function RecruitersTab(users: seq<UserView>): seq<UserView> { Filter(users, HasRole(RECRUITER)) }

  /**
   * Each tab holds exactly the users of its role, so no user is in both and admins are in
   * neither; together the tabs hold every user who is not an admin.
   */
  lemma TabsSplitUsers(users: seq<UserView>, u: UserView)
    ensures u in CandidatesTab(users) <==> u in users && u.role == CANDIDATE
    ensures u in RecruitersTab(users) <==> u in users && u.role == RECRUITER
    ensures |CandidatesTab(users)| + |RecruitersTab(users)| == Count(users, (v: UserView) => v.role != ADMIN)
  {
    if u in users {
      var i :| 0 <= i < |users| && users[i] == u;
    }
    CountDisjoint(users, HasRole(CANDIDATE), HasRole(RECRUITER), (v: UserView) => v.role != ADMIN);
  }

  /** `user.profile?.first_name`: only an object profile has fields; an array has none. */
  function FirstName(p: Profiles): Option<string>
  {
    if p.CandidateProfiles? && p.candidate.Row? then p.candidate.row.firstName else None
  }

  function LastName(p: Profiles): Option<string>
  {
    if p.CandidateProfiles? && p.candidate.Row? then p.candidate.row.lastName else None
  }

  function CompanyName(p: Profiles): Option<string>
  {
    if p.RecruiterProfiles? && p.recruiter.Row? then Some(p.recruiter.row.companyName) else None
  }

  /** The name column: first and last name when both are set, else the email. */
  function DisplayName(u: UserView): string
  {
    if Present(FirstName(u.profile)) && Present(LastName(u.profile)) then
      FirstName(u.profile).value + " " + LastName(u.profile).value
    else u.email
  }

  /** The details column: a candidate's applications, else the company, else the recruiter's jobs. */
  function Details(u: UserView): string
  {
    if RoleName(u.role) == "CANDIDATE" then NatToString(u.applicationsCount) + " applications"
    else if Present(CompanyName(u.profile)) then CompanyName(u.profile).value
    else NatToString(u.jobsCount) + " jobs"
  }

  /**
   * For a row of the users endpoint, the name is the candidate's first and last name only when
   * the profile arrives as an object and has both; recruiters and admins always show their
   * email, and so does everyone when profiles arrive as arrays.
   */
  lemma DisplayNameOfRow(db: Db, shape: Shape, u: User)
    ensures var v := AdminUsersRoute.ViewOf(db, shape, u);
      && (shape == AsArray || u.role != CANDIDATE ==> DisplayName(v) == u.email)
      && (shape == AsObject && u.role == CANDIDATE && u.id in db.candidates
          && Present(db.candidates[u.id].firstName) && Present(db.candidates[u.id].lastName) ==>
            DisplayName(v) == db.candidates[u.id].firstName.value + " " + db.candidates[u.id].lastName.value)
  {
  }

  /**
   * For a row of the users endpoint, a candidate's details count the candidate's applications;
   * anyone else shows the company of an object profile with a non-empty name, and otherwise
   * the number of jobs they posted.
   */
  lemma DetailsOfRow(db: Db, shape: Shape, u: User)
    ensures var v := AdminUsersRoute.ViewOf(db, shape, u);
      && (u.role == CANDIDATE ==> Details(v) == NatToString(Count(db.apps, AppOfCandidate(u.id))) + " applications")
      && (u.role != CANDIDATE ==>
            Details(v) == if shape == AsObject && u.id in db.recruiters && db.recruiters[u.id].companyName != ""
                          then db.recruiters[u.id].companyName
                          else NatToString(Count(db.jobs, JobOfRecruiter(u.id))) + " jobs")
  {
  }
}

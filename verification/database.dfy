/**
 * The hosted database and identity provider as one mutable store. Each table is a field the
 * handlers' writes reassign. The store hands out ids and timestamps from two counters, so
 * every table lists its rows oldest first and "order by date, newest first" reads a table
 * backwards.
 */
module Database {
  import opened Wrappers
  import opened Seqs
  import opened Model

  /** Every id in the database is below `nextId` and every timestamp below `clock`. */
  ghost predicate Below(db: Db, nextId: nat, clock: int)
  {
    && (forall i :: 0 <= i < |db.users| ==> db.users[i].id < nextId && db.users[i].createdAt < clock)
    && (forall i :: 0 <= i < |db.accounts| ==> db.accounts[i].id < nextId)
    && (forall i :: 0 <= i < |db.jobs| ==> db.jobs[i].id < nextId && db.jobs[i].createdAt < clock)
    && (forall i :: 0 <= i < |db.apps| ==> db.apps[i].id < nextId && db.apps[i].appliedAt < clock)
  }

  /** The applications with the status of every row with id `id` set to `s`. */
  function WithStatus(apps: seq<Application>, id: AppId, s: AppStatus): (r: seq<Application>)
    ensures |r| == |apps|
    ensures forall i :: 0 <= i < |apps| ==>
      r[i] == if apps[i].id == id then apps[i].(status := s) else apps[i]
  {
    Map(apps, (a: Application) => if a.id == id then a.(status := s) else a)
  }

  /** A user that is not `id`. */
  function UserNot(id: UserId): User -> bool { (u: User) => u.id != id }
  function AccountNot(id: UserId): Account -> bool { (a: Account) => a.id != id }

  class Store {
    var users: seq<User>
    var accounts: seq<Account>
    var candidates: map<UserId, CandidateProfile>
    var recruiters: map<UserId, RecruiterProfile>
    var jobs: seq<Job>
    var apps: seq<Application>
    var nextId: nat
    var clock: int

    function View(): Db
      reads this
    {
      Db(users, accounts, candidates, recruiters, jobs, apps)
    }

    ghost predicate Valid()
      reads this
    {
      WellFormed(View()) && Below(View(), nextId, clock)
    }

    /** A store seeded with any well-formed database. */
    constructor (db: Db, firstId: nat, now: int)
      requires WellFormed(db) && Below(db, firstId, now)
      ensures Valid() && View() == db && nextId == firstId && clock == now
    {
      users := db.users;
      accounts := db.accounts;
      candidates := db.candidates;
      recruiters := db.recruiters;
      jobs := db.jobs;
      apps := db.apps;
      nextId := firstId;
      clock := now;
    }

    /** Insert an application; the store assigns its id and `applied_at`. */
    method AddApplication(jobId: JobId, candidateId: UserId, resumeUrl: string,
                          coverLetter: Option<string>, status: AppStatus)
      returns (a: Application)
      requires Valid()
      modifies this
      ensures Valid()
      ensures a == Application(old(nextId), jobId, candidateId, resumeUrl, coverLetter, status, old(clock))
      ensures View() == old(View()).(apps := old(apps) + [a])
      ensures nextId == old(nextId) + 1 && clock == old(clock) + 1
    {
      a := Application(nextId, jobId, candidateId, resumeUrl, coverLetter, status, clock);
      AppendIncreasing(apps, a, AppApplied);
      AppendDistinct(apps, a, AppKey);
      apps := apps + [a];
      nextId := nextId + 1;
      clock := clock + 1;
    }

    /** Insert a job; the store assigns its id, `created_at` and `updated_at`. */
    method AddJob(title: string, description: string, location: string,
                  salary: Option<string>, jobType: Option<string>, experience: Option<string>,
                  skills: seq<string>, recruiterId: UserId, status: JobStatus)
      returns (j: Job)
      requires Valid()
      modifies this
      ensures Valid()
      ensures j == Job(old(nextId), title, description, location, salary, jobType, experience,
                       skills, recruiterId, status, old(clock), old(clock))
      ensures View() == old(View()).(jobs := old(jobs) + [j])
      ensures nextId == old(nextId) + 1 && clock == old(clock) + 1
    {
      j := Job(nextId, title, description, location, salary, jobType, experience,
               skills, recruiterId, status, clock, clock);
      AppendIncreasing(jobs, j, JobCreated);
      AppendDistinct(jobs, j, JobKey);
      jobs := jobs + [j];
      nextId := nextId + 1;
      clock := clock + 1;
    }

    /** The identity provider creates an account; it assigns the id. */
    method AddAccount(email: string, metadata: Metadata) returns (acc: Account)
      requires Valid()
      modifies this
      ensures Valid()
      ensures acc == Account(old(nextId), email, metadata)
      ensures View() == old(View()).(accounts := old(accounts) + [acc])
      ensures nextId == old(nextId) + 1 && clock == old(clock)
    {
      acc := Account(nextId, email, metadata);
      assert forall i :: 0 <= i < |accounts| ==> AccountKey(accounts[i]) < AccountKey(acc);
      accounts := accounts + [acc];
      nextId := nextId + 1;
    }

    /** `update({ status }).eq('id', id)` on the applications table. */
    method SetStatus(id: AppId, s: AppStatus)
      requires Valid()
      modifies this
      ensures Valid()
      ensures View() == old(View()).(apps := WithStatus(old(apps), id, s))
      ensures nextId == old(nextId) && clock == old(clock)
    {
      apps := WithStatus(apps, id, s);
    }

    /** Replace the candidate profile of user `uid`. */
    method PutCandidate(uid: UserId, p: CandidateProfile)
      requires Valid()
      modifies this
      ensures Valid()
      ensures View() == old(View()).(candidates := old(candidates)[uid := p])
      ensures nextId == old(nextId) && clock == old(clock)
    {
      candidates := candidates[uid := p];
    }

    /** Replace the recruiter profile of user `uid`. */
    method PutRecruiter(uid: UserId, p: RecruiterProfile)
      requires Valid()
      modifies this
      ensures Valid()
      ensures View() == old(View()).(recruiters := old(recruiters)[uid := p])
      ensures nextId == old(nextId) && clock == old(clock)
    {
      recruiters := recruiters[uid := p];
    }

    /** `auth.admin.deleteUser(id)` followed by deleting the `users` row with that id. */
    method DeleteUser(id: UserId)
      requires Valid()
      modifies this
      ensures Valid()
      ensures View() == old(View()).(users := Filter(old(users), UserNot(id)),
                                     accounts := Filter(old(accounts), AccountNot(id)))
      ensures nextId == old(nextId) && clock == old(clock)
    {
      FilterIncreasing(users, UserNot(id), UserCreated);
      FilterDistinct(users, UserNot(id), UserKey);
      FilterDistinct(accounts, AccountNot(id), AccountKey);
      users := Filter(users, UserNot(id));
      accounts := Filter(accounts, AccountNot(id));
    }
  }
}

/**
 * The data model of the HireNest database (the `users`, `candidate_profiles`,
 * `recruiter_profiles`, `jobs` and `applications` tables and the identity provider's
 * accounts), the shapes in which the hosted store hands rows back to a handler, and the
 * handlers' common reply type.
 */
module Model {
  import opened Wrappers
  import opened Seqs

  type UserId = nat
  type JobId = nat
  type AppId = nat

  datatype Role = ADMIN | RECRUITER | CANDIDATE
  datatype JobStatus = OPEN | CLOSED
  datatype AppStatus = PENDING | VIEWED | SHORTLISTED | REJECTED

  function RoleName(r: Role): string
  {
    match r
    case ADMIN => "ADMIN"
    case RECRUITER => "RECRUITER"
    case CANDIDATE => "CANDIDATE"
  }

  function JobStatusName(s: JobStatus): string
  {
    match s
    case OPEN => "OPEN"
    case CLOSED => "CLOSED"
  }

  function StatusName(s: AppStatus): string
  {
    match s
    case PENDING => "PENDING"
    case VIEWED => "VIEWED"
    case SHORTLISTED => "SHORTLISTED"
    case REJECTED => "REJECTED"
  }

  /** `['PENDING', 'VIEWED', 'SHORTLISTED', 'REJECTED'].includes(s)`, keeping which one it was. */
  function ParseStatus(s: string): (r: Option<AppStatus>)
    ensures r.Some? ==> StatusName(r.value) == s
    ensures r.None? ==> forall t :: StatusName(t) != s
  {
    if s == "PENDING" then Some(PENDING)
    else if s == "VIEWED" then Some(VIEWED)
    else if s == "SHORTLISTED" then Some(SHORTLISTED)
    else if s == "REJECTED" then Some(REJECTED)
    else None
  }

  /** Every status name parses back to its status. */
  lemma ParseStatusName(t: AppStatus)
    ensures ParseStatus(StatusName(t)) == Some(t)
  {
  }

  datatype User = User(id: UserId, email: string, role: Role, createdAt: int)

  datatype CandidateProfile = CandidateProfile(
    id: nat, userId: UserId,
    phone: Option<string>, photoUrl: Option<string>, resumeUrl: Option<string>,
    firstName: Option<string>, lastName: Option<string>)

  datatype RecruiterProfile = RecruiterProfile(
    id: nat, userId: UserId,
    companyName: string, companyEmail: string, description: Option<string>)

  datatype Job = Job(
    id: JobId, title: string, description: string, location: string,
    salary: Option<string>, jobType: Option<string>, experience: Option<string>,
    skills: seq<string>, recruiterId: UserId, status: JobStatus,
    createdAt: int, updatedAt: int)

  datatype Application = Application(
    id: AppId, jobId: JobId, candidateId: UserId, resumeUrl: string,
    coverLetter: Option<string>, status: AppStatus, appliedAt: int)

  /** The identity provider's `user_metadata`, written at registration. */
  datatype Metadata = Metadata(
    role: string, phone: Option<string>, companyName: Option<string>,
    companyEmail: Option<string>, description: Option<string>)

  /** An account of the identity provider. */
  datatype Account = Account(id: UserId, email: string, metadata: Metadata)

  /** The caller as the identity provider resolves the session: its id and metadata role. */
  datatype AuthUser = AuthUser(id: UserId, metaRole: Option<string>)

  /** `None` when `auth.getUser()` returned an error or no user. */
  type Session = Option<AuthUser>

  /** A handler's response: a JSON body with status 200, or `{ error }` with a status code. */
  datatype Reply<T> = Ok(body: T) | Fail(code: nat, message: string)

  /** JavaScript truthiness of an optional string field: present and not empty. */
  predicate Present(o: Option<string>)
  {
    o.Some? && o.value != ""
  }

  /** `x || null` */
  function OrNull(o: Option<string>): (r: Option<string>)
    ensures Present(o) ==> r == o
    ensures !Present(o) ==> r.None?
  {
    if Present(o) then o else None
  }

  /** `x || fallback` for a string */
  function OrElse(o: Option<string>, fallback: string): string
  {
    if Present(o) then o.value else fallback
  }

  /**
   * An embedded relation as the store returns it: an array of rows, a single row, or null.
   * Which one arrives depends on how the store reads the foreign key, which the handlers
   * cannot see, so they accept both.
   */
  datatype Embed<T> = Rows(rows: seq<T>) | Row(row: T) | Null

  datatype Shape = AsArray | AsObject

  /** The embedding of an optional related row in the given shape. */
  function EmbedAs<T>(o: Option<T>, shape: Shape): Embed<T>
  {
    match shape
    case AsArray => if o.Some? then Rows([o.value]) else Rows([])
    case AsObject => if o.Some? then Row(o.value) else Null
  }

  /** `Array.isArray(x) ? x[0] : x` */
  function FirstRow<T>(e: Embed<T>): Option<T>
  {
    match e
    case Rows(rs) => if |rs| > 0 then Some(rs[0]) else None
    case Row(r) => Some(r)
    case Null => None
  }

  /** Reading the first row of an embedding gives the related row back, in either shape. */
  lemma FirstRowOfEmbed<T>(o: Option<T>, shape: Shape)
    ensures FirstRow(EmbedAs(o, shape)) == o
  {
  }

  /** A user's profiles as embedded under the `users` row: the candidate ones or the recruiter ones. */
  datatype Profiles = CandidateProfiles(candidate: Embed<CandidateProfile>) | RecruiterProfiles(recruiter: Embed<RecruiterProfile>)

  /** `.single()`: the row when exactly one row matched, otherwise null. */
  function Single<T>(rows: seq<T>): (r: Option<T>)
    ensures r.Some? <==> |rows| == 1
    ensures r.Some? ==> r.value == rows[0]
  {
    if |rows| == 1 then Some(rows[0]) else None
  }

  /** The whole database at one moment. */
  datatype Db = Db(
    users: seq<User>,
    accounts: seq<Account>,
    candidates: map<UserId, CandidateProfile>,
    recruiters: map<UserId, RecruiterProfile>,
    jobs: seq<Job>,
    apps: seq<Application>)

  function UserHasId(id: UserId): User -> bool { (u: User) => u.id == id }
  function JobHasId(id: JobId): Job -> bool { (j: Job) => j.id == id }
  function AppHasId(id: AppId): Application -> bool { (a: Application) => a.id == id }
  function AppOfJob(id: JobId): Application -> bool { (a: Application) => a.jobId == id }
  function AppOfCandidate(id: UserId): Application -> bool { (a: Application) => a.candidateId == id }
  function AppFor(job: JobId, candidate: UserId): Application -> bool
  {
    (a: Application) => a.jobId == job && a.candidateId == candidate
  }
  function AppHasStatus(s: AppStatus): Application -> bool { (a: Application) => a.status == s }
  function JobOfRecruiter(id: UserId): Job -> bool { (j: Job) => j.recruiterId == id }
  function JobHasStatus(s: JobStatus): Job -> bool { (j: Job) => j.status == s }
  function UserHasRole(r: Role): User -> bool { (u: User) => u.role == r }

  /** `rows.map(j => j.id)` */
  function JobIds(js: seq<Job>): seq<JobId> { Map(js, (j: Job) => j.id) }
  /** `.in('job_id', ids)` */
  function AppInJobs(ids: seq<JobId>): Application -> bool { (a: Application) => a.jobId in ids }

  function UserCreated(u: User): int { u.createdAt }
  function JobCreated(j: Job): int { j.createdAt }
  function AppApplied(a: Application): int { a.appliedAt }

  /** `from('users').select(...).eq('id', id).single()` */
  function UserRow(db: Db, id: UserId): Option<User>
  {
    Single(Filter(db.users, UserHasId(id)))
  }

  /** `from('jobs').select(...).eq('id', id).single()` */
  function JobRow(db: Db, id: JobId): Option<Job>
  {
    Single(Filter(db.jobs, JobHasId(id)))
  }

  /** `from('applications').select(...).eq('id', id).single()` */
  function AppRow(db: Db, id: AppId): Option<Application>
  {
    Single(Filter(db.apps, AppHasId(id)))
  }

  function CandidateProfileOf(db: Db, id: UserId): Option<CandidateProfile>
  {
    if id in db.candidates then Some(db.candidates[id]) else None
  }

  function RecruiterProfileOf(db: Db, id: UserId): Option<RecruiterProfile>
  {
    if id in db.recruiters then Some(db.recruiters[id]) else None
  }

  function UserKey(u: User): int { u.id }
  function AccountKey(a: Account): int { a.id }
  function JobKey(j: Job): int { j.id }
  function AppKey(a: Application): int { a.id }

  /** At most one application per (job, candidate) pair. */
  ghost predicate OnePerPair(s: seq<Application>)
  {
    forall i, j :: 0 <= i < j < |s| ==>
      s[i].jobId != s[j].jobId || s[i].candidateId != s[j].candidateId
  }

  /**
   * What the store keeps true: ids are unique and every table lists its rows oldest first
   * (the store stamps rows with a growing clock). Nothing in the store keeps applications
   * unique per pair; see `OnePerPair`.
   */
  ghost predicate WellFormed(db: Db)
  {
    && Distinct(db.users, UserKey) && Distinct(db.accounts, AccountKey)
    && Distinct(db.jobs, JobKey) && Distinct(db.apps, AppKey)
    && Increasing(db.users, UserCreated)
    && Increasing(db.jobs, JobCreated)
    && Increasing(db.apps, AppApplied)
  }

  /** When no element satisfies `p`, the filter is empty. */
  lemma FilterNone<T>(s: seq<T>, p: T -> bool)
    requires forall i :: 0 <= i < |s| ==> !p(s[i])
    ensures Filter(s, p) == []
  {
  }

  /** When no two elements satisfy `p`, at most one survives the filter. */
  lemma {:induction false} FilterAtMostOne<T>(s: seq<T>, p: T -> bool)
    requires forall i, j :: 0 <= i < j < |s| ==> !(p(s[i]) && p(s[j]))
    ensures |Filter(s, p)| <= 1
  {
    if s != [] {
      FilterAtMostOne(s[1..], p);
      if p(s[0]) {
        forall i | 0 <= i < |s[1..]| ensures !p(s[1..][i]) {
          assert s[1..][i] == s[i + 1];
        }
        FilterNone(s[1..], p);
      }
    }
  }

  /**
   * When no two elements satisfy `p`, `.single()` over the filter finds a row exactly when
   * some element satisfies `p`, and then it finds that element.
   */
  lemma SingleFilterUnique<T>(s: seq<T>, p: T -> bool)
    requires forall i, j :: 0 <= i < j < |s| ==> !(p(s[i]) && p(s[j]))
    ensures Single(Filter(s, p)).Some? <==> exists i :: 0 <= i < |s| && p(s[i])
    ensures forall i :: 0 <= i < |s| && p(s[i]) ==> Single(Filter(s, p)) == Some(s[i])
  {
    FilterAtMostOne(s, p);
    var r := Filter(s, p);
    if |r| == 1 {
      assert r[0] in s;
    }
    forall i | 0 <= i < |s| && p(s[i]) ensures Single(r) == Some(s[i]) {
      assert s[i] in r;
    }
  }

  /** With unique ids, looking up a user by id finds the row with that id, if there is one. */
  lemma UserRowIs(db: Db, id: UserId)
    requires Distinct(db.users, UserKey)
    ensures UserRow(db, id).Some? <==> exists i :: 0 <= i < |db.users| && db.users[i].id == id
    ensures forall i :: 0 <= i < |db.users| && db.users[i].id == id ==> UserRow(db, id) == Some(db.users[i])
  {
    SingleFilterUnique(db.users, UserHasId(id));
  }

  /** With unique ids, looking up a job by id finds the row with that id, if there is one. */
  lemma JobRowIs(db: Db, id: JobId)
    requires Distinct(db.jobs, JobKey)
    ensures JobRow(db, id).Some? <==> exists i :: 0 <= i < |db.jobs| && db.jobs[i].id == id
    ensures forall i :: 0 <= i < |db.jobs| && db.jobs[i].id == id ==> JobRow(db, id) == Some(db.jobs[i])
  {
    SingleFilterUnique(db.jobs, JobHasId(id));
  }

  /** With unique ids, looking up an application by id finds the row with that id, if there is one. */
  lemma AppRowIs(db: Db, id: AppId)
    requires Distinct(db.apps, AppKey)
    ensures AppRow(db, id).Some? <==> exists i :: 0 <= i < |db.apps| && db.apps[i].id == id
    ensures forall i :: 0 <= i < |db.apps| && db.apps[i].id == id ==> AppRow(db, id) == Some(db.apps[i])
  {
    SingleFilterUnique(db.apps, AppHasId(id));
  }

  /** `{ total, pending, viewed, shortlisted, rejected }`: applications counted by status. */
  datatype StatusTally = StatusTally(total: nat, pending: nat, viewed: nat, shortlisted: nat, rejected: nat)

  function Tally(apps: seq<Application>): StatusTally
  {
    StatusTally(|apps|, Count(apps, AppHasStatus(PENDING)), Count(apps, AppHasStatus(VIEWED)),
                Count(apps, AppHasStatus(SHORTLISTED)), Count(apps, AppHasStatus(REJECTED)))
  }

  /** Every application has one of the four statuses, so the four counts add up to the total. */
  lemma {:induction false} TallySums(apps: seq<Application>)
    ensures var t := Tally(apps); t.pending + t.viewed + t.shortlisted + t.rejected == t.total
  {
    if apps != [] {
      TallySums(apps[1..]);
    }
  }

  /** `Math.ceil(a / b)` for a count `a` and a non-zero divisor. */
  function CeilDiv(a: nat, b: int): int
    requires b != 0
  {
    if b > 0 then (a + b - 1) / b else -(a / -b)
  }

  /** With a positive divisor, `CeilDiv` is the least number of pages of size `b` that hold `a` rows. */
  lemma CeilDivIsCeiling(a: nat, b: int)
    requires b > 0
    ensures var p := CeilDiv(a, b); p >= 0 && p * b >= a && (p - 1) * b < a
  {
    var p := CeilDiv(a, b);
    assert p * b <= a + b - 1 < (p + 1) * b;
  }

  /** The `pagination` object of a paged listing; `pages` is null when the limit is zero. */
  datatype Pagination = Pagination(page: int, limit: int, total: nat, pages: Option<int>)

  function PaginationOf(page: int, limit: int, total: nat): Pagination
  {
    Pagination(page, limit, total, if limit == 0 then None else Some(CeilDiv(total, limit)))
  }

  /**
   * A ranged read that also asks for the exact count is refused when its first row lies past
   * that count (HTTP 416, "PGRST103"); the client library reports the refusal as the query's
   * error. A first row exactly at the count gives an empty page.
   */
  predicate RangeRefused(offset: int, total: nat)
  {
    offset > total
  }

  /** The message of that refusal. */
  const RangeNotSatisfiable := "Requested range not satisfiable"

  /**
   * The recruiter's profiles embedded under the `users` row the foreign key points to, or
   * null when that row is missing.
   */
  function RecruiterEmbed(db: Db, uid: UserId, shape: Shape): Embed<RecruiterProfile>
  {
    if UserRow(db, uid).Some? then EmbedAs(RecruiterProfileOf(db, uid), shape) else Null
  }

  /** `recruiter?.recruiter_profiles?.company_name`, read straight off the embedded value. */
  function CompanyField(e: Embed<RecruiterProfile>): Option<string>
  {
    match e
    case Row(p) => Some(p.companyName)
    case _ => None
  }

  /**
   * Reading `company_name` straight off the embedding finds it only when the profile arrives
   * as an object: an array has no such field.
   */
  lemma CompanyFieldNeedsObject(p: RecruiterProfile)
    ensures CompanyField(EmbedAs(Some(p), AsObject)) == Some(p.companyName)
    ensures CompanyField(EmbedAs(Some(p), AsArray)).None?
  {
  }
}

/**
 * `POST /api/jobs/apply`: a candidate applies to an open job. The handler is a chain of
 * guards, each ending the request with its own status and message, followed by a single
 * insert into the applications table.
 */
module ApplyRoute {
  import opened Wrappers
  import opened Seqs
  import opened Model
  import opened Database

  const NoResume := "You must upload a resume before applying. Go to your dashboard to upload your resume."
  const AlreadyApplied := "You have already applied for this job"

  /** The request body: `job_id` (`None` when absent or empty) and `cover_letter`. */
  datatype Body = Body(jobId: Option<JobId>, coverLetter: Option<string>)

  /** The application the handler is about to insert. */
  datatype Draft = Draft(jobId: JobId, candidateId: UserId, resumeUrl: string, coverLetter: Option<string>)

  /**
   * The resume URL read from the embedded candidate profile: element 0 of a non-empty
   * array, the object itself, and otherwise null.
   */
  function ResumeOf(profiles: Embed<CandidateProfile>): Option<string>
  {
    match profiles
    case Rows(rs) => if |rs| > 0 then rs[0].resumeUrl else None
    case Row(p) => p.resumeUrl
    case Null => None
  }

  /** Whichever shape the profile arrives in, the resume read is the profile's own. */
  lemma ResumeOfEitherShape(db: Db, uid: UserId, shape: Shape)
    ensures ResumeOf(EmbedAs(CandidateProfileOf(db, uid), shape))
         == (if uid in db.candidates then db.candidates[uid].resumeUrl else None)
  {
  }

  /** The caller's resume as the handler reads it. */
  function CallerResume(db: Db, uid: UserId, shape: Shape): Option<string>
  {
    ResumeOf(EmbedAs(CandidateProfileOf(db, uid), shape))
  }

  /** The guard chain: the first failing guard decides the response. */
  function Decide(db: Db, session: Session, shape: Shape, body: Body): Reply<Draft>
  {
    if session.None? then Fail(401, "Unauthorized")
    else
      var uid := session.value.id;
      var userData := UserRow(db, uid);
      if userData.None? || userData.value.role != CANDIDATE then
        Fail(403, "Only candidates can apply for jobs")
      else
        var resume := CallerResume(db, uid, shape);
        if !Present(resume) then Fail(400, NoResume)
        else if body.jobId.None? then Fail(400, "Job ID is required")
        else
          var jobId := body.jobId.value;
          var job := JobRow(db, jobId);
          if job.None? then Fail(404, "Job not found")
          else if job.value.status != OPEN then Fail(400, "This job is no longer accepting applications")
          else if Single(Filter(db.apps, AppFor(jobId, uid))).Some? then Fail(400, AlreadyApplied)
          else Ok(Draft(jobId, uid, resume.value, OrNull(body.coverLetter)))
  }

  /** The row the store holds after inserting `d` with the given id and time. */
  function Inserted(d: Draft, id: AppId, now: int): Application
  {
    Application(id, d.jobId, d.candidateId, d.resumeUrl, d.coverLetter, PENDING, now)
  }

  /** The caller has a `users` row with role CANDIDATE. */
  ghost predicate IsCandidate(db: Db, uid: UserId)
  {
    exists i :: 0 <= i < |db.users| && db.users[i].id == uid && db.users[i].role == CANDIDATE
  }

  /** The caller's candidate profile holds a non-empty resume URL. */
  ghost predicate HasResume(db: Db, uid: UserId)
  {
    uid in db.candidates && Present(db.candidates[uid].resumeUrl)
  }

  /** A job with this id exists and is open. */
  ghost predicate IsOpenJob(db: Db, jobId: JobId)
  {
    exists k :: 0 <= k < |db.jobs| && db.jobs[k].id == jobId && db.jobs[k].status == OPEN
  }

  /** The caller has no application to this job. */
  ghost predicate NotApplied(db: Db, jobId: JobId, uid: UserId)
  {
    forall k :: 0 <= k < |db.apps| ==> !(db.apps[k].jobId == jobId && db.apps[k].candidateId == uid)
  }

  /**
   * When an application succeeds, stated without the guard chain: the caller is a candidate
   * with a resume on their profile, the job exists and is open, and the caller has not
   * applied to it yet.
   */
  ghost predicate Eligible(db: Db, session: Session, body: Body)
  {
    && session.Some? && body.jobId.Some?
    && IsCandidate(db, session.value.id)
    && HasResume(db, session.value.id)
    && IsOpenJob(db, body.jobId.value)
    && NotApplied(db, body.jobId.value, session.value.id)
  }

  /** No two applications of `s` satisfy `AppFor(job, candidate)`. */
  lemma PairAtMostOnce(s: seq<Application>, job: JobId, candidate: UserId)
    requires OnePerPair(s)
    ensures forall i, j :: 0 <= i < j < |s| ==> !(AppFor(job, candidate)(s[i]) && AppFor(job, candidate)(s[j]))
  {
  }

  lemma CandidateGuard(db: Db, uid: UserId)
    requires Distinct(db.users, UserKey)
    ensures (UserRow(db, uid).Some? && UserRow(db, uid).value.role == CANDIDATE) <==> IsCandidate(db, uid)
  {
    UserRowIs(db, uid);
  }

  lemma OpenJobGuard(db: Db, jobId: JobId)
    requires Distinct(db.jobs, JobKey)
    ensures (JobRow(db, jobId).Some? && JobRow(db, jobId).value.status == OPEN) <==> IsOpenJob(db, jobId)
  {
    JobRowIs(db, jobId);
  }

  lemma DuplicateGuard(db: Db, jobId: JobId, uid: UserId)
    requires OnePerPair(db.apps)
    ensures Single(Filter(db.apps, AppFor(jobId, uid))).None? <==> NotApplied(db, jobId, uid)
  {
    PairAtMostOnce(db.apps, jobId, uid);
    SingleFilterUnique(db.apps, AppFor(jobId, uid));
  }

  /**
   * An application goes through exactly when the caller is eligible, whichever shape the
   * profile arrives in, and it then carries the caller's id, the profile's resume URL and the
   * cover letter or null.
   */
  lemma SucceedsIffEligible(db: Db, session: Session, shape: Shape, body: Body)
    requires WellFormed(db) && OnePerPair(db.apps)
    ensures Decide(db, session, shape, body).Ok? <==> Eligible(db, session, body)
    ensures Eligible(db, session, body) ==>
      Decide(db, session, shape, body).body
        == Draft(body.jobId.value, session.value.id,
                 db.candidates[session.value.id].resumeUrl.value, OrNull(body.coverLetter))
  {
    if session.Some? {
      var uid := session.value.id;
      CandidateGuard(db, uid);
      ResumeOfEitherShape(db, uid, shape);
      if body.jobId.Some? {
        OpenJobGuard(db, body.jobId.value);
        DuplicateGuard(db, body.jobId.value, uid);
      }
    }
  }

  /**
   * The resume is checked before the request body is read: a candidate without a resume gets
   * the resume error whatever the body says, even with no job id at all.
   */
  lemma ResumeCheckedBeforeJobId(db: Db, uid: UserId, shape: Shape, body: Body, coverLetter: Option<string>)
    requires UserRow(db, uid).Some? && UserRow(db, uid).value.role == CANDIDATE
    requires !Present(CallerResume(db, uid, shape))
    ensures Decide(db, Some(AuthUser(uid, None)), shape, body) == Fail(400, NoResume)
    ensures Decide(db, Some(AuthUser(uid, None)), shape, Body(None, coverLetter)) == Fail(400, NoResume)
  {
  }

  /** The response does not depend on the shape in which the profile is embedded. */
  lemma ShapeIrrelevant(db: Db, session: Session, body: Body)
    ensures Decide(db, session, AsArray, body) == Decide(db, session, AsObject, body)
  {
    if session.Some? {
      ResumeOfEitherShape(db, session.value.id, AsArray);
      ResumeOfEitherShape(db, session.value.id, AsObject);
    }
  }

  /** Adding rows to the applications table leaves every guard before the duplicate check as it was. */
  lemma GuardsIgnoreApplications(db: Db, db': Db, session: Session, shape: Shape, body: Body)
    requires db' == db.(apps := db'.apps)
    requires Decide(db, session, shape, body).Ok?
    ensures var d := Decide(db, session, shape, body).body;
      Decide(db', session, shape, body)
        == if Single(Filter(db'.apps, AppFor(d.jobId, d.candidateId))).Some? then Fail(400, AlreadyApplied)
           else Ok(d)
  {
    assert UserRow(db', session.value.id) == UserRow(db, session.value.id);
    assert JobRow(db', body.jobId.value) == JobRow(db, body.jobId.value);
  }

  /** Adding an application for a pair that has none keeps applications one per pair. */
  lemma OnePerPairAppend(s: seq<Application>, a: Application)
    requires OnePerPair(s)
    requires forall k :: 0 <= k < |s| ==> !(s[k].jobId == a.jobId && s[k].candidateId == a.candidateId)
    ensures OnePerPair(s + [a])
  {
  }

  /**
   * Applying twice in a row: after a successful application, the same request by the same
   * caller is refused as a duplicate, and the applications stay one per (job, candidate).
   */
  lemma NoSecondApplication(db: Db, session: Session, shape: Shape, body: Body, id: AppId, now: int)
    requires OnePerPair(db.apps)
    requires Decide(db, session, shape, body).Ok?
    ensures var db' := db.(apps := db.apps + [Inserted(Decide(db, session, shape, body).body, id, now)]);
      && OnePerPair(db'.apps)
      && Decide(db', session, shape, body) == Fail(400, AlreadyApplied)
  {
    var d := Decide(db, session, shape, body).body;
    var a := Inserted(d, id, now);
    var db' := db.(apps := db.apps + [a]);
    var p := AppFor(d.jobId, d.candidateId);
    DuplicateGuard(db, d.jobId, d.candidateId);
    assert NotApplied(db, a.jobId, a.candidateId);
    OnePerPairAppend(db.apps, a);
    FilterNone(db.apps, p);
    FilterConcat(db.apps, [a], p);
    assert Filter(db'.apps, p) == [a];
    GuardsIgnoreApplications(db, db', session, shape, body);
  }

  /**
   * The duplicate check reads its row with `.single()`, which finds nothing when two or more
   * rows match: once a pair has two applications, a third one is let through.
   */
  lemma DuplicatesOnlyCaughtOnce(db: Db, uid: UserId, shape: Shape, jobId: JobId, coverLetter: Option<string>)
    requires UserRow(db, uid).Some? && UserRow(db, uid).value.role == CANDIDATE
    requires Present(CallerResume(db, uid, shape))
    requires JobRow(db, jobId).Some? && JobRow(db, jobId).value.status == OPEN
    requires Count(db.apps, AppFor(jobId, uid)) >= 2
    ensures Decide(db, Some(AuthUser(uid, None)), shape, Body(Some(jobId), coverLetter)).Ok?
  {
  }

  /**
   * The handler. Store failures of the insert are the parameter `insertError`. Whatever the
   * outcome, only the applications table changes, and only by the one inserted row.
   */
  method Post(st: Store, session: Session, shape: Shape, body: Body, insertError: Option<string>)
    returns (r: Reply<Application>)
    requires st.Valid()
    modifies st
    ensures st.Valid()
    ensures var d := Decide(old(st.View()), session, shape, body);
      && (d.Fail? ==> r == Fail(d.code, d.message) && st.View() == old(st.View()))
      && (d.Ok? && insertError.Some? ==> r == Fail(500, insertError.value) && st.View() == old(st.View()))
      && (d.Ok? && insertError.None? ==>
            && r == Ok(Inserted(d.body, old(st.nextId), old(st.clock)))
            && st.View() == old(st.View()).(apps := old(st.apps) + [r.body]))
  {
    if session.None? {
      return Fail(401, "Unauthorized");
    }
    var uid := session.value.id;
    var userData := UserRow(st.View(), uid);
    if userData.None? || userData.value.role != CANDIDATE {
      return Fail(403, "Only candidates can apply for jobs");
    }

    var profiles := EmbedAs(CandidateProfileOf(st.View(), uid), shape);
    var resumeUrl: Option<string> := None;
    if profiles.Rows? && |profiles.rows| > 0 {
      resumeUrl := profiles.rows[0].resumeUrl;
    } else if profiles.Row? {
      resumeUrl := profiles.row.resumeUrl;
    }
    if !Present(resumeUrl) {
      return Fail(400, NoResume);
    }

    if body.jobId.None? {
      return Fail(400, "Job ID is required");
    }
    var jobId := body.jobId.value;
    var job := JobRow(st.View(), jobId);
    if job.None? {
      return Fail(404, "Job not found");
    }
    if job.value.status != OPEN {
      return Fail(400, "This job is no longer accepting applications");
    }

    var existing := Single(Filter(st.apps, AppFor(jobId, uid)));
    if existing.Some? {
      return Fail(400, AlreadyApplied);
    }

    if insertError.Some? {
      return Fail(500, insertError.value);
    }
    var application := st.AddApplication(jobId, uid, resumeUrl.value, OrNull(body.coverLetter), PENDING);
    return Ok(application);
  }
}

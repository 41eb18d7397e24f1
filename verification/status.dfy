/**
 * `PATCH /api/applications/status`: the recruiter who owns a job sets the status of an
 * application to it. The server accepts any of the four statuses from any current status.
 */
module StatusRoute {
  import opened Wrappers
  import opened Seqs
  import opened Model
  import opened Database

  const NotFound := "Application not found or not authorized"

  /** The request body: `application_id` and `status`, `None` when absent or empty. */
  datatype Body = Body(applicationId: Option<AppId>, status: Option<string>)

  /** The update the handler is about to make. */
  datatype Change = Change(id: AppId, status: AppStatus)

  /**
   * The `recruiter_id` of the job joined to an application: element 0 when the job arrives as
   * an array, the object's own field otherwise, and nothing when the job is missing.
   */
  function RecruiterOf(jobs: Embed<Job>): Option<UserId>
  {
    match jobs
    case Rows(rs) => if |rs| > 0 then Some(rs[0].recruiterId) else None
    case Row(j) => Some(j.recruiterId)
    case Null => None
  }

  /** The owner of an application's job, as the handler reads it through the join. */
  function OwnerOf(db: Db, a: Application, shape: Shape): Option<UserId>
  {
    RecruiterOf(EmbedAs(JobRow(db, a.jobId), shape))
  }

  /** The guard chain: the first failing guard decides the response. */
  function Decide(db: Db, session: Session, shape: Shape, body: Body): Reply<Change>
  {
    if session.None? then Fail(401, "Unauthorized")
    else
      var uid := session.value.id;
      var userData := UserRow(db, uid);
      if userData.None? || userData.value.role != RECRUITER then
        Fail(403, "Only recruiters can update application status")
      else if body.applicationId.None? || !Present(body.status) then
        Fail(400, "Application ID and status are required")
      else
        var status := ParseStatus(body.status.value);
        if status.None? then Fail(400, "Invalid status")
        else
          var application := AppRow(db, body.applicationId.value);
          if application.None? || OwnerOf(db, application.value, shape) != Some(uid) then
            Fail(404, NotFound)
          else Ok(Change(body.applicationId.value, status.value))
  }

  /** Whichever shape the job arrives in, the owner read is the job's recruiter. */
  lemma OwnerEitherShape(db: Db, a: Application, shape: Shape)
    ensures OwnerOf(db, a, shape) == if JobRow(db, a.jobId).Some? then Some(JobRow(db, a.jobId).value.recruiterId) else None
  {
  }

  /** The response does not depend on the shape in which the job is joined. */
  lemma ShapeIrrelevant(db: Db, session: Session, body: Body)
    ensures Decide(db, session, AsArray, body) == Decide(db, session, AsObject, body)
  {
    var id := body.applicationId;
    if id.Some? && AppRow(db, id.value).Some? {
      OwnerEitherShape(db, AppRow(db, id.value).value, AsArray);
      OwnerEitherShape(db, AppRow(db, id.value).value, AsObject);
    }
  }

  /** Only recruiters get past the role check: an admin, a candidate or a caller without a row get 403. */
  lemma OnlyRecruiters(db: Db, uid: UserId, shape: Shape, body: Body)
    requires UserRow(db, uid).None? || UserRow(db, uid).value.role in {ADMIN, CANDIDATE}
    ensures Decide(db, Some(AuthUser(uid, None)), shape, body)
         == Fail(403, "Only recruiters can update application status")
  {
  }

  /** The caller owns the application: it exists and its job belongs to the caller. */
  ghost predicate Owns(db: Db, uid: UserId, id: AppId)
  {
    exists k, j :: 0 <= k < |db.apps| && 0 <= j < |db.jobs|
      && db.apps[k].id == id && db.jobs[j].id == db.apps[k].jobId && db.jobs[j].recruiterId == uid
  }

  /**
   * Past the role and input checks, the outcome depends only on ownership: the owner's
   * request is accepted with the requested status whatever the current status is, and an
   * absent application and someone else's application get the same 404.
   */
  lemma OwnershipDecides(db: Db, uid: UserId, shape: Shape, id: AppId, status: AppStatus)
    requires WellFormed(db)
    requires UserRow(db, uid).Some? && UserRow(db, uid).value.role == RECRUITER
    ensures var r := Decide(db, Some(AuthUser(uid, None)), shape, Body(Some(id), Some(StatusName(status))));
      && (Owns(db, uid, id) ==> r == Ok(Change(id, status)))
      && (!Owns(db, uid, id) ==> r == Fail(404, NotFound))
  {
    var r := Decide(db, Some(AuthUser(uid, None)), shape, Body(Some(id), Some(StatusName(status))));
    ParseStatusName(status);
    OwnsIff(db, uid, id);
    if AppRow(db, id).Some? {
      OwnerEitherShape(db, AppRow(db, id).value, shape);
    }
  }

  /** Ownership as the handler checks it: the application is found and so is its job, which is the caller's. */
  lemma OwnsIff(db: Db, uid: UserId, id: AppId)
    requires WellFormed(db)
    ensures Owns(db, uid, id) <==>
      && AppRow(db, id).Some? && JobRow(db, AppRow(db, id).value.jobId).Some?
      && JobRow(db, AppRow(db, id).value.jobId).value.recruiterId == uid
  {
    AppRowIs(db, id);
    if AppRow(db, id).Some? {
      var a := AppRow(db, id).value;
      JobRowIs(db, a.jobId);
      if Owns(db, uid, id) {
        var k, j :| 0 <= k < |db.apps| && 0 <= j < |db.jobs|
          && db.apps[k].id == id && db.jobs[j].id == db.apps[k].jobId && db.jobs[j].recruiterId == uid;
        assert a == db.apps[k];
      }
      if JobRow(db, a.jobId).Some? && JobRow(db, a.jobId).value.recruiterId == uid {
        var k :| 0 <= k < |db.apps| && db.apps[k].id == id;
        var j :| 0 <= j < |db.jobs| && db.jobs[j].id == a.jobId;
        assert a == db.apps[k];
      }
    }
  }

  /**
   * The update changes the status of the one application with that id and nothing else;
   * every target status is reachable, from any current status.
   */
  lemma UpdateTouchesOneRow(apps: seq<Application>, k: nat, status: AppStatus)
    requires Distinct(apps, AppKey) && k < |apps|
    ensures var r := WithStatus(apps, apps[k].id, status);
      && |r| == |apps|
      && r[k] == apps[k].(status := status)
      && forall i :: 0 <= i < |apps| && i != k ==> r[i] == apps[i]
  {
    var r := WithStatus(apps, apps[k].id, status);
    forall i | 0 <= i < |apps| && i != k ensures r[i] == apps[i] {
      if i < k {
        assert AppKey(apps[i]) != AppKey(apps[k]);
      } else {
        assert AppKey(apps[k]) != AppKey(apps[i]);
      }
    }
  }

  /** The handler. A failing store update is the parameter `updateError`. */
  method Patch(st: Store, session: Session, shape: Shape, body: Body, updateError: Option<string>)
    returns (r: Reply<string>)
    requires st.Valid()
    modifies st
    ensures st.Valid()
    ensures var d := Decide(old(st.View()), session, shape, body);
      && (d.Fail? ==> r == Fail(d.code, d.message) && st.View() == old(st.View()))
      && (d.Ok? && updateError.Some? ==> r == Fail(500, updateError.value) && st.View() == old(st.View()))
      && (d.Ok? && updateError.None? ==>
            && r == Ok("Status updated successfully")
            && st.View() == old(st.View()).(apps := WithStatus(old(st.apps), d.body.id, d.body.status)))
  {
    if session.None? {
      return Fail(401, "Unauthorized");
    }
    var uid := session.value.id;
    var userData := UserRow(st.View(), uid);
    if userData.None? || userData.value.role != RECRUITER {
      return Fail(403, "Only recruiters can update application status");
    }

    if body.applicationId.None? || !Present(body.status) {
      return Fail(400, "Application ID and status are required");
    }
    var status := ParseStatus(body.status.value);
    if status.None? {
      return Fail(400, "Invalid status");
    }

    var id := body.applicationId.value;
    var application := AppRow(st.View(), id);
    var recruiterId: Option<UserId> := None;
    if application.Some? {
      var jobData := EmbedAs(JobRow(st.View(), application.value.jobId), shape);
      if jobData.Rows? {
        recruiterId := if |jobData.rows| > 0 then Some(jobData.rows[0].recruiterId) else None;
      } else if jobData.Row? {
        recruiterId := Some(jobData.row.recruiterId);
      }
    }
    if application.None? || recruiterId != Some(uid) {
      return Fail(404, NotFound);
    }

    if updateError.Some? {
      return Fail(500, updateError.value);
    }
    st.SetStatus(id, status.value);
    return Ok("Status updated successfully");
  }
}

/**
 * `/api/auth/me`: the signed-in user with the profile that matches their role (`GET`), and
 * the update of that profile (`PATCH`).
 */
module MeRoute {
  import opened Wrappers
  import opened Model
  import opened Database

  /** The `profile` of the response: the first candidate or recruiter profile, or null. */
  datatype ProfileValue = Candidate(c: CandidateProfile) | Recruiter(r: RecruiterProfile) | NullProfile

  /** The `user` object of the `GET` response. */
  datatype Me = Me(id: UserId, email: string, role: Role, createdAt: int, profile: ProfileValue)

  /** A field of the `PATCH` body: missing (dropped from the update), JSON null, or a string. */
  datatype Field = Absent | Null | Value(s: string)

  datatype PatchBody = PatchBody(phone: Field, companyName: Field, companyEmail: Field, description: Field)

  /** `Array.isArray(p) ? p[0] : p` over the embedded candidate profiles. */
  function CandidateValue(e: Embed<CandidateProfile>): ProfileValue
  {
    var p := FirstRow(e);
    if p.Some? then Candidate(p.value) else NullProfile
  }

  function RecruiterValue(e: Embed<RecruiterProfile>): ProfileValue
  {
    var p := FirstRow(e);
    if p.Some? then Recruiter(p.value) else NullProfile
  }

  /** The `GET` answer; a failing lookup is `lookupFails`, answered like a missing row. */
  function Get(db: Db, session: Session, shape: Shape, lookupFails: bool): Reply<Me>
  {
    if session.None? then Fail(401, "Unauthorized")
    else
      var userData := UserRow(db, session.value.id);
      if lookupFails || userData.None? then Fail(404, "User not found")
      else
        var u := userData.value;
        var profile :=
          if u.role == CANDIDATE then CandidateValue(EmbedAs(CandidateProfileOf(db, u.id), shape))
          else if u.role == RECRUITER then RecruiterValue(EmbedAs(RecruiterProfileOf(db, u.id), shape))
          else NullProfile;
        Ok(Me(u.id, u.email, u.role, u.createdAt, profile))
  }

  /**
   * The profile returned is the caller's own candidate profile for a candidate and recruiter
   * profile for a recruiter, whichever shape it arrives in, null when it is missing, and null
   * for an admin; no session gives 401 and no `users` row 404.
   */
  lemma ProfileByRole(db: Db, session: Session, shape: Shape)
    ensures session.None? ==> Get(db, session, shape, false) == Fail(401, "Unauthorized")
    ensures session.Some? && UserRow(db, session.value.id).None? ==> Get(db, session, shape, false) == Fail(404, "User not found")
    ensures session.Some? && UserRow(db, session.value.id).Some? ==>
      var u := UserRow(db, session.value.id).value; var p := Get(db, session, shape, false).body.profile;
      && (u.role == CANDIDATE && u.id in db.candidates ==> p == Candidate(db.candidates[u.id]))
      && (u.role == RECRUITER && u.id in db.recruiters ==> p == Recruiter(db.recruiters[u.id]))
      && (u.role == CANDIDATE && u.id !in db.candidates ==> p == NullProfile)
      && (u.role == RECRUITER && u.id !in db.recruiters ==> p == NullProfile)
      && (u.role == ADMIN ==> p == NullProfile)
  {
    if session.Some? && UserRow(db, session.value.id).Some? {
      var u := UserRow(db, session.value.id).value;
      FirstRowOfEmbed(CandidateProfileOf(db, u.id), shape);
      FirstRowOfEmbed(RecruiterProfileOf(db, u.id), shape);
    }
  }

  /** `{ phone }` written to an optional column: a missing field keeps the value, null clears it. */
  function Set(old_: Option<string>, f: Field): Option<string>
  {
    match f
    case Absent => old_
    case Null => None
    case Value(s) => Some(s)
  }

  /** The candidate's profile after the update: only `phone` changes. */
  function PatchCandidate(p: CandidateProfile, body: PatchBody): CandidateProfile
  {
    p.(phone := Set(p.phone, body.phone))
  }

  /**
   * The recruiter's profile after the update of `company_name`, `company_email` and
   * `description`, or `None` when the update would store null in a required column and the
   * store refuses it.
   */
  function PatchRecruiter(p: RecruiterProfile, body: PatchBody): Option<RecruiterProfile>
  {
    if body.companyName.Null? || body.companyEmail.Null? then None
    else
      Some(p.(companyName := if body.companyName.Value? then body.companyName.s else p.companyName,
              companyEmail := if body.companyEmail.Value? then body.companyEmail.s else p.companyEmail,
              description := Set(p.description, body.description)))
  }

  /** The database after the `PATCH` by user `u`, when the write goes through. */
  function Patched(db: Db, u: User, body: PatchBody): Db
  {
    if u.role == CANDIDATE && u.id in db.candidates then
      db.(candidates := db.candidates[u.id := PatchCandidate(db.candidates[u.id], body)])
    else if u.role == RECRUITER && u.id in db.recruiters && PatchRecruiter(db.recruiters[u.id], body).Some? then
      db.(recruiters := db.recruiters[u.id := PatchRecruiter(db.recruiters[u.id], body).value])
    else db
  }

  /** The `PATCH` guards; the result is the caller's `users` row. */
  function DecidePatch(db: Db, session: Session): Reply<User>
  {
    if session.None? then Fail(401, "Unauthorized")
    else if UserRow(db, session.value.id).None? then Fail(404, "User not found")
    else Ok(UserRow(db, session.value.id).value)
  }

  /**
   * A candidate's update changes only the phone of their own profile, whatever company
   * fields the body carries; a recruiter's changes only the company name, email and
   * description of their own profile; an admin's changes nothing. No other profile changes.
   */
  lemma PatchTouchesOwnProfile(db: Db, u: User, body: PatchBody)
    ensures var d := Patched(db, u, body);
      && d.users == db.users && d.jobs == db.jobs && d.apps == db.apps && d.accounts == db.accounts
      && d.candidates.Keys == db.candidates.Keys && d.recruiters.Keys == db.recruiters.Keys
      && (forall v :: v in db.candidates && v != u.id ==> d.candidates[v] == db.candidates[v])
      && (forall v :: v in db.recruiters && v != u.id ==> d.recruiters[v] == db.recruiters[v])
      && (u.role == CANDIDATE ==>
            && d.recruiters == db.recruiters
            && (u.id in db.candidates ==> d.candidates[u.id] == db.candidates[u.id].(phone := Set(db.candidates[u.id].phone, body.phone))))
      && (u.role == CANDIDATE ==> Patched(db, u, body.(companyName := Absent, companyEmail := Absent, description := Absent)) == d)
      && (u.role == RECRUITER ==>
            && d.candidates == db.candidates
            && (u.id in db.recruiters ==> d.recruiters[u.id].id == db.recruiters[u.id].id && d.recruiters[u.id].userId == db.recruiters[u.id].userId))
      && (u.role == RECRUITER ==> Patched(db, u, body.(phone := Absent)) == d)
      && (u.role == ADMIN ==> d == db)
  {
  }

  /**
   * The `PATCH` handler. The profile write failing is `writeFails`; the handler ignores the
   * outcome of the write and reports success once the caller has a `users` row.
   */
  method Patch(st: Store, session: Session, body: PatchBody, writeFails: bool) returns (r: Reply<string>)
    requires st.Valid()
    modifies st
    ensures st.Valid()
    ensures var d := DecidePatch(old(st.View()), session);
      && (d.Fail? ==> r == Fail(d.code, d.message) && st.View() == old(st.View()))
      && (d.Ok? ==>
            && r == Ok("Profile updated successfully")
            && st.View() == if writeFails then old(st.View()) else Patched(old(st.View()), d.body, body))
  {
    if session.None? {
      return Fail(401, "Unauthorized");
    }
    var userData := UserRow(st.View(), session.value.id);
    if userData.None? {
      return Fail(404, "User not found");
    }
    var u := userData.value;
    if !writeFails {
      if u.role == CANDIDATE {
        if u.id in st.candidates {
          st.PutCandidate(u.id, PatchCandidate(st.candidates[u.id], body));
        }
      } else if u.role == RECRUITER {
        if u.id in st.recruiters {
          var p := PatchRecruiter(st.recruiters[u.id], body);
          if p.Some? {
            st.PutRecruiter(u.id, p.value);
          }
        }
      }
    }
    return Ok("Profile updated successfully");
  }
}

/**
 * `POST /api/jobs/create`: a recruiter posts a job. The caller's role comes from the `users`
 * row, or from the account metadata when there is no row; the skills arrive either as a
 * list or as comma-separated text.
 */
module CreateJobRoute {
  import opened Wrappers
  import opened Seqs
  import opened Strings
  import opened Model
  import opened Database

  /** The `skills` field of the request: a list, a text, or absent. */
  datatype Skills = SkillList(items: seq<string>) | SkillText(text: string) | NoSkills

  /** The request body. */
  datatype Body = Body(
    title: Option<string>, description: Option<string>, location: Option<string>,
    salary: Option<string>, jobType: Option<string>, experience: Option<string>,
    skills: Skills)

  /** The row the handler is about to insert; the store adds the id and the timestamps. */
  datatype Draft = Draft(
    title: string, description: string, location: string,
    salary: Option<string>, jobType: Option<string>, experience: Option<string>,
    skills: seq<string>, recruiterId: UserId, status: JobStatus)

  /** A list is kept as it is; a text is split on commas, trimmed and stripped of empty pieces. */
  function NormalizeSkills(s: Skills): seq<string>
  {
    match s
    case SkillList(items) => items
    case SkillText(text) => SplitTrimNonEmpty(text)
    case NoSkills => []
  }

  /**
   * Skills given as text become non-empty, trimmed pieces without commas, and a text made by
   * joining such pieces gives them back in order.
   */
  lemma NormalizeSkillsText(text: string, parts: seq<string>)
    requires forall i :: 0 <= i < |parts| ==> parts[i] != "" && Trimmed(parts[i]) && ',' !in parts[i]
    ensures forall i :: 0 <= i < |NormalizeSkills(SkillText(text))| ==>
      var p := NormalizeSkills(SkillText(text))[i]; p != "" && Trimmed(p) && ',' !in p
    ensures NormalizeSkills(SkillText(Join(parts, ','))) == parts
    ensures NormalizeSkills(SkillList(parts)) == parts
  {
    SplitTrimNonEmptyJoin(parts);
  }

  /** The role the handler checks: the `users` row's, or the metadata's when there is no row. */
  function EffectiveRole(db: Db, user: AuthUser): Option<string>
  {
    var userData := UserRow(db, user.id);
    if userData.Some? then Some(RoleName(userData.value.role)) else user.metaRole
  }

  /** The guard chain: the first failing guard decides the response. */
  function Decide(db: Db, session: Session, body: Body): Reply<Draft>
  {
    if session.None? then Fail(401, "Unauthorized - please login")
    else
      var role := EffectiveRole(db, session.value);
      if !Present(role) || role.value != "RECRUITER" then
        Fail(403, "Only recruiters can post jobs. Your role: " + OrElse(role, "unknown"))
      else if !Present(body.title) || !Present(body.description) || !Present(body.location) then
        Fail(400, "Title, description, and location are required")
      else
        Ok(Draft(body.title.value, body.description.value, body.location.value,
                 OrNull(body.salary), OrNull(body.jobType), OrNull(body.experience),
                 NormalizeSkills(body.skills), session.value.id, OPEN))
  }

  predicate Forbidden<T>(r: Reply<T>)
  {
    r.Fail? && r.code == 403
  }

  /**
   * The role check: with a `users` row only that row's role counts, whatever the metadata
   * says; without one the metadata role decides. The refusal names the role, or 'unknown'.
   */
  lemma RoleResolution(db: Db, user: AuthUser, body: Body)
    ensures UserRow(db, user.id).Some? ==>
      (Forbidden(Decide(db, Some(user), body)) <==> UserRow(db, user.id).value.role != RECRUITER)
    ensures UserRow(db, user.id).None? ==>
      (Forbidden(Decide(db, Some(user), body)) <==> user.metaRole != Some("RECRUITER"))
    ensures UserRow(db, user.id).None? && !Present(user.metaRole) ==>
      Decide(db, Some(user), body) == Fail(403, "Only recruiters can post jobs. Your role: unknown")
  {
  }

  /**
   * A job is created exactly for a recruiter who gives a title, a description and a location;
   * it is open, belongs to the caller, keeps those three fields, and stores an empty salary,
   * job type or experience as null.
   */
  lemma CreatesOpenJobOfCaller(db: Db, user: AuthUser, body: Body)
    ensures Decide(db, Some(user), body).Ok? <==>
      EffectiveRole(db, user) == Some("RECRUITER")
      && Present(body.title) && Present(body.description) && Present(body.location)
    ensures Decide(db, Some(user), body).Ok? ==>
      var d := Decide(db, Some(user), body).body;
      && d.status == OPEN && d.recruiterId == user.id
      && Some(d.title) == body.title && Some(d.description) == body.description
      && Some(d.location) == body.location
      && (Present(body.salary) ==> d.salary == body.salary)
      && (!Present(body.salary) ==> d.salary.None?)
      && (!Present(body.jobType) ==> d.jobType.None?)
      && (!Present(body.experience) ==> d.experience.None?)
      && d.skills == NormalizeSkills(body.skills)
  {
  }

  /** The handler. A failing insert is the parameter `insertError`. */
  method Post(st: Store, session: Session, body: Body, insertError: Option<string>)
    returns (r: Reply<Job>)
    requires st.Valid()
    modifies st
    ensures st.Valid()
    ensures var d := Decide(old(st.View()), session, body);
      && (d.Fail? ==> r == Fail(d.code, d.message) && st.View() == old(st.View()))
      && (d.Ok? && insertError.Some? ==> r == Fail(500, insertError.value) && st.View() == old(st.View()))
      && (d.Ok? && insertError.None? ==>
            && r == Ok(Job(old(st.nextId), d.body.title, d.body.description, d.body.location,
                           d.body.salary, d.body.jobType, d.body.experience, d.body.skills,
                           d.body.recruiterId, d.body.status, old(st.clock), old(st.clock)))
            && st.View() == old(st.View()).(jobs := old(st.jobs) + [r.body]))
  {
    if session.None? {
      return Fail(401, "Unauthorized - please login");
    }
    var user := session.value;
    var userData := UserRow(st.View(), user.id);
    var userRole: Option<string> := if userData.Some? then Some(RoleName(userData.value.role)) else None;
    if userData.None? {
      userRole := user.metaRole;
    }
    if !Present(userRole) || userRole.value != "RECRUITER" {
      return Fail(403, "Only recruiters can post jobs. Your role: " + OrElse(userRole, "unknown"));
    }

    if !Present(body.title) || !Present(body.description) || !Present(body.location) {
      return Fail(400, "Title, description, and location are required");
    }

    if insertError.Some? {
      return Fail(500, insertError.value);
    }
    var job := st.AddJob(body.title.value, body.description.value, body.location.value,
                         OrNull(body.salary), OrNull(body.jobType), OrNull(body.experience),
                         NormalizeSkills(body.skills), user.id, OPEN);
    return Ok(job);
  }
}

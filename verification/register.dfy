/**
 * `POST /api/auth/register`: validates a sign-up request and asks the identity provider to
 * create the account, with the role and profile fields as account metadata.
 */
module RegisterRoute {
  import opened Wrappers
  import opened Seqs
  import opened Model
  import opened Database

  /** The request body; every field may be absent. */
  datatype Body = Body(
    email: Option<string>, password: Option<string>, role: Option<string>,
    phone: Option<string>, companyName: Option<string>, companyEmail: Option<string>,
    description: Option<string>)

  /** What the identity provider's `createUser` answers. */
  datatype Provider = Created | ProviderError(message: string) | NoUser

  /** The `user` object of the response. */
  datatype Registered = Registered(id: UserId, email: string, role: string)

  function UserHasEmail(email: string): User -> bool { (u: User) => u.email == email }

  /** The metadata a valid request stores: the role, and every optional field or null. */
  function MetadataOf(body: Body): Metadata
    requires body.role.Some?
  {
    Metadata(body.role.value, OrNull(body.phone), OrNull(body.companyName),
             OrNull(body.companyEmail), OrNull(body.description))
  }

  /** The guard chain: the first failing guard decides the response. */
  function Decide(db: Db, body: Body): Reply<Metadata>
  {
    if !Present(body.email) || !Present(body.password) then
      Fail(400, "Email and password are required")
    else if |body.password.value| < 6 then
      Fail(400, "Password must be at least 6 characters")
    else if !Present(body.role) || body.role.value !in ["CANDIDATE", "RECRUITER"] then
      Fail(400, "Valid role (CANDIDATE or RECRUITER) is required")
    else if body.role.value == "RECRUITER" && (!Present(body.companyName) || !Present(body.companyEmail)) then
      Fail(400, "Company name and email required for recruiters")
    else if |Take(Filter(db.users, UserHasEmail(body.email.value)), 1)| > 0 then
      Fail(400, "User with this email already exists")
    else
      Ok(MetadataOf(body))
  }

  /** A request the handler lets through to the identity provider, stated field by field. */
  ghost predicate Valid(db: Db, body: Body)
  {
    && Present(body.email) && Present(body.password) && |body.password.value| >= 6
    && body.role.Some? && body.role.value in {"CANDIDATE", "RECRUITER"}
    && (body.role.value == "RECRUITER" ==> Present(body.companyName) && Present(body.companyEmail))
    && forall i :: 0 <= i < |db.users| ==> db.users[i].email != body.email.value
  }

  /**
   * A request passes exactly when it is valid, and the account is then created with the
   * requested role and every absent or empty optional field as null.
   */
  lemma PassesIffValid(db: Db, body: Body)
    ensures Decide(db, body).Ok? <==> Valid(db, body)
    ensures Decide(db, body).Ok? ==>
      && Decide(db, body).body.role == body.role.value
      && (Present(body.phone) ==> Decide(db, body).body.phone == body.phone)
      && (!Present(body.phone) ==> Decide(db, body).body.phone.None?)
      && (!Present(body.companyName) ==> Decide(db, body).body.companyName.None?)
      && (!Present(body.companyEmail) ==> Decide(db, body).body.companyEmail.None?)
      && (!Present(body.description) ==> Decide(db, body).body.description.None?)
  {
    if Present(body.email) {
      var p := UserHasEmail(body.email.value);
      var hits := Filter(db.users, p);
      if hits != [] {
        assert hits[0] in db.users;
      }
      if exists i :: 0 <= i < |db.users| && db.users[i].email == body.email.value {
        var i :| 0 <= i < |db.users| && db.users[i].email == body.email.value;
        assert db.users[i] in hits;
      }
    }
  }

  /**
   * The guards fire in order: missing credentials win over a short password, a short password
   * over a missing, empty or unknown role, a bad role over a recruiter's missing company
   * fields, and those over an email already registered. Every refusal is a 400. A password of
   * exactly six characters passes the length check.
   */
  lemma GuardOrder(db: Db, body: Body)
    ensures !Present(body.email) || !Present(body.password) ==>
      Decide(db, body) == Fail(400, "Email and password are required")
    ensures Present(body.email) && Present(body.password) && |body.password.value| < 6 ==>
      Decide(db, body) == Fail(400, "Password must be at least 6 characters")
    ensures Present(body.email) && Present(body.password) && |body.password.value| == 6 ==>
      Decide(db, body) != Fail(400, "Password must be at least 6 characters")
    ensures (Present(body.email) && Present(body.password) && |body.password.value| >= 6
             && !(body.role.Some? && body.role.value in {"CANDIDATE", "RECRUITER"})) ==>
      Decide(db, body) == Fail(400, "Valid role (CANDIDATE or RECRUITER) is required")
    ensures (Present(body.email) && Present(body.password) && |body.password.value| >= 6
             && body.role == Some("RECRUITER")
             && (!Present(body.companyName) || !Present(body.companyEmail))) ==>
      Decide(db, body) == Fail(400, "Company name and email required for recruiters")
    ensures (Present(body.email) && Present(body.password) && |body.password.value| >= 6
             && body.role.Some? && body.role.value in {"CANDIDATE", "RECRUITER"}
             && (body.role.value == "RECRUITER" ==> Present(body.companyName) && Present(body.companyEmail))
             && (exists i :: 0 <= i < |db.users| && db.users[i].email == body.email.value)) ==>
      Decide(db, body) == Fail(400, "User with this email already exists")
    ensures Decide(db, body).Fail? ==> Decide(db, body).code == 400
  {
    PassesIffValid(db, body);
  }

  /**
   * The handler. The identity provider's answer is the parameter `provider`; on `Created` it
   * adds the account, whose id and email the response reports with the requested role.
   */
  method Post(st: Store, body: Body, provider: Provider) returns (r: Reply<Registered>)
    requires st.Valid()
    modifies st
    ensures st.Valid()
    ensures var d := Decide(old(st.View()), body);
      && (d.Fail? ==> r == Fail(d.code, d.message) && st.View() == old(st.View()))
      && (d.Ok? && provider.ProviderError? ==> r == Fail(400, provider.message) && st.View() == old(st.View()))
      && (d.Ok? && provider.NoUser? ==> r == Fail(500, "Failed to create user") && st.View() == old(st.View()))
      && (d.Ok? && provider.Created? ==>
            && r == Ok(Registered(old(st.nextId), body.email.value, body.role.value))
            && st.View() == old(st.View()).(accounts := old(st.accounts)
                 + [Account(old(st.nextId), body.email.value, d.body)]))
  {
    if !Present(body.email) || !Present(body.password) {
      return Fail(400, "Email and password are required");
    }
    if |body.password.value| < 6 {
      return Fail(400, "Password must be at least 6 characters");
    }
    if !Present(body.role) || body.role.value !in ["CANDIDATE", "RECRUITER"] {
      return Fail(400, "Valid role (CANDIDATE or RECRUITER) is required");
    }
    if body.role.value == "RECRUITER" && (!Present(body.companyName) || !Present(body.companyEmail)) {
      return Fail(400, "Company name and email required for recruiters");
    }

    var existingUsers := Take(Filter(st.users, UserHasEmail(body.email.value)), 1);
    if |existingUsers| > 0 {
      return Fail(400, "User with this email already exists");
    }

    if provider.ProviderError? {
      return Fail(400, provider.message);
    }
    if provider.NoUser? {
      return Fail(500, "Failed to create user");
    }
    var account := st.AddAccount(body.email.value, MetadataOf(body));
    return Ok(Registered(account.id, account.email, body.role.value));
  }
}

/**
 * `POST /api/auth/login`: signs the user in with the identity provider and answers with the
 * user's role and profiles.
 */
module LoginRoute {
  import opened Wrappers
  import opened Model

  datatype Body = Body(email: Option<string>, password: Option<string>)

  /** What `signInWithPassword` answers: an error, or the signed-in user and their email. */
  datatype SignIn = SignInError(message: string) | SignedIn(user: AuthUser, email: string)

  /** The `user` object of the response; `profile` is undefined without a `users` row. */
  datatype LoggedIn = LoggedIn(id: UserId, email: string, role: string, profile: Option<Profiles>)

  /** `userData?.role || user_metadata?.role || 'CANDIDATE'` */
  function RoleOf(userData: Option<User>, metaRole: Option<string>): string
  {
    if userData.Some? then RoleName(userData.value.role)
    else if Present(metaRole) then metaRole.value
    else "CANDIDATE"
  }

  /** The handler's answer; the identity provider's answer is `signIn`. */
  function Respond(db: Db, body: Body, signIn: SignIn, shape: Shape): Reply<LoggedIn>
  {
    if !Present(body.email) || !Present(body.password) then Fail(400, "Email and password are required")
    else if signIn.SignInError? then Fail(401, signIn.message)
    else
      var uid := signIn.user.id;
      var userData := UserRow(db, uid);
      var role := RoleOf(userData, signIn.user.metaRole);
      var profile :=
        if userData.None? then None
        else if role == "CANDIDATE" then Some(CandidateProfiles(EmbedAs(CandidateProfileOf(db, uid), shape)))
        else Some(RecruiterProfiles(EmbedAs(RecruiterProfileOf(db, uid), shape)));
      Ok(LoggedIn(uid, signIn.email, role, profile))
  }

  /**
   * Missing credentials are refused before the provider's answer matters; a sign-in error
   * gives 401 with the provider's message.
   */
  lemma InputBeforeSignIn(db: Db, body: Body, signIn: SignIn, shape: Shape)
    ensures !Present(body.email) || !Present(body.password) ==>
      forall s :: Respond(db, body, s, shape) == Fail(400, "Email and password are required")
    ensures Present(body.email) && Present(body.password) && signIn.SignInError? ==>
      Respond(db, body, signIn, shape) == Fail(401, signIn.message)
  {
  }

  /**
   * The role is the `users` row's when there is one, else the metadata's when that is not
   * empty, else CANDIDATE; the profiles are the candidate ones exactly when the role is
   * CANDIDATE, so an admin is answered with recruiter profiles.
   */
  lemma RoleAndProfile(db: Db, body: Body, user: AuthUser, email: string, shape: Shape)
    requires Present(body.email) && Present(body.password)
    ensures var r := Respond(db, body, SignedIn(user, email), shape); var row := UserRow(db, user.id);
      && r.Ok? && r.body.id == user.id
      && (row.Some? ==> r.body.role == RoleName(row.value.role))
      && (row.None? && Present(user.metaRole) ==> r.body.role == user.metaRole.value)
      && (row.None? && !Present(user.metaRole) ==> r.body.role == "CANDIDATE")
      && (row.None? <==> r.body.profile.None?)
      && (row.Some? ==> (r.body.profile.value.CandidateProfiles? <==> row.value.role == CANDIDATE))
      && (row.Some? && row.value.role == CANDIDATE ==>
            FirstRow(r.body.profile.value.candidate) == CandidateProfileOf(db, user.id))
      && (row.Some? && row.value.role != CANDIDATE ==>
            FirstRow(r.body.profile.value.recruiter) == RecruiterProfileOf(db, user.id))
  {
    FirstRowOfEmbed(CandidateProfileOf(db, user.id), shape);
    FirstRowOfEmbed(RecruiterProfileOf(db, user.id), shape);
  }
}

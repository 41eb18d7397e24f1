/**
 * The admin-access decision used by the admin routes: a header token written by the admin
 * login page is tried first, then the caller's session and `users` row.
 */
module AdminAuth {
  import opened Wrappers
  import opened Model

  const AdminEmail := "admin@hirenest.com"

  /**
   * The `x-admin-token` header after `JSON.parse`: text that does not parse, or an object
   * whose string-valued fields are kept by name.
   */
  datatype Token = Malformed | Json(fields: map<string, string>)

  /** Who the admin is: the fixed super admin, or a user whose `users` row says ADMIN. */
  datatype AdminId = SuperAdmin | DbAdmin(id: UserId)

  /** `{ isValid, userId }` */
  datatype Access = Denied | Granted(admin: AdminId)

  /** The token's fields name the fixed admin email and the SUPER_ADMIN role. */
  predicate TokenValid(t: Token)
  {
    t.Json? && "email" in t.fields && t.fields["email"] == AdminEmail
    && "role" in t.fields && t.fields["role"] == "SUPER_ADMIN"
  }

  /** The session path: a signed-in caller whose `users` row says ADMIN. */
  function SessionAccess(db: Db, session: Session): Access
  {
    if session.Some? && UserRow(db, session.value.id).Some?
       && UserRow(db, session.value.id).value.role == ADMIN
    then Granted(DbAdmin(session.value.id))
    else Denied
  }

  /**
   * The decision. `header` is `None` when the header is absent or empty; a failing session
   * lookup is `session == None`.
   */
  function Verify(db: Db, header: Option<Token>, session: Session): Access
  {
    if header.Some? && TokenValid(header.value) then Granted(SuperAdmin)
    else SessionAccess(db, session)
  }

  /** The value the admin login page stores after a successful login at `loginTime`. */
  function LoginSession(loginTime: string): Token
  {
    Json(map["email" := AdminEmail, "role" := "SUPER_ADMIN", "loginTime" := loginTime])
  }

  /** The session the login page stores is accepted as the super admin, whoever is signed in. */
  lemma LoginSessionAccepted(db: Db, loginTime: string, session: Session)
    ensures Verify(db, Some(LoginSession(loginTime)), session) == Granted(SuperAdmin)
  {
  }

  /**
   * A token is accepted exactly when it parses to an object with the admin email and the
   * SUPER_ADMIN role, and then neither the session nor the database is consulted. Any other
   * header, or none, falls through to the session path rather than failing.
   */
  lemma HeaderFirst(db: Db, header: Option<Token>, session: Session)
    ensures Verify(db, header, session) == Granted(SuperAdmin) <==> header.Some? && TokenValid(header.value)
    ensures header.Some? && TokenValid(header.value) ==>
      forall db', session' :: Verify(db', header, session') == Granted(SuperAdmin)
    ensures !(header.Some? && TokenValid(header.value)) ==>
      Verify(db, header, session) == Verify(db, None, session)
  {
  }

  /**
   * On the session path access is granted exactly to a signed-in caller whose `users` row
   * says ADMIN, under that caller's id; everyone else, recruiters and candidates included,
   * is denied.
   */
  lemma SessionPathIff(db: Db, session: Session, id: UserId)
    ensures Verify(db, None, session) == Granted(DbAdmin(id)) <==>
      session.Some? && session.value.id == id
      && UserRow(db, id).Some? && UserRow(db, id).value.role == ADMIN
    ensures Verify(db, None, session).Granted? ==> Verify(db, None, session).admin.DbAdmin?
    ensures session.Some? && UserRow(db, session.value.id).Some? && UserRow(db, session.value.id).value.role != ADMIN
      ==> Verify(db, Some(Malformed), session) == Denied
  {
  }
}

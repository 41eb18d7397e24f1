/**
 * `/api/admin/users`: the admin's user list (`GET`, paged and optionally filtered by role)
 * and user removal (`DELETE`).
 */
module AdminUsersRoute {
  import opened Wrappers
  import opened Seqs
  import opened Model
  import opened Database
  import opened AdminAuth

  const Unauthorized := "Unauthorized - Admin access required"

  /** The query string: `role`, `page` and `limit`, `None` when absent or empty. */
  datatype Query = Query(role: Option<string>, page: Option<int>, limit: Option<int>)

  /** The users query: the optional role filter and the range. */
  datatype UserQuery = UserQuery(role: Option<string>, offset: int, limit: int)

  /** One row of the response. */
  datatype UserView = UserView(
    id: UserId, email: string, role: Role, createdAt: int,
    profile: Profiles, jobsCount: nat, applicationsCount: nat)

  datatype UserPage = UserPage(users: seq<UserView>, pagination: Pagination)

  /** The `DELETE` body: `user_id`, `None` when absent or empty. */
  datatype DeleteBody = DeleteBody(userId: Option<UserId>)

  function PageOf(q: Query): int { q.page.GetOr(1) }
  function LimitOf(q: Query): int { q.limit.GetOr(20) }

  function QueryOf(q: Query): UserQuery
  {
    UserQuery(OrNull(q.role), (PageOf(q) - 1) * LimitOf(q), LimitOf(q))
  }

  predicate Matches(uq: UserQuery, u: User)
  {
    uq.role.Some? ==> RoleName(u.role) == uq.role.value
  }

  function MatchesOf(uq: UserQuery): User -> bool { (u: User) => Matches(uq, u) }

  /** The matching users, newest first. */
  function Selected(db: Db, uq: UserQuery): seq<User>
  {
    Reverse(Filter(db.users, MatchesOf(uq)))
  }

  /** The candidate profiles of a candidate, the recruiter profiles of anyone else. */
  function ProfilesOf(db: Db, shape: Shape, u: User): Profiles
  {
    if u.role == CANDIDATE then CandidateProfiles(EmbedAs(CandidateProfileOf(db, u.id), shape))
    else RecruiterProfiles(EmbedAs(RecruiterProfileOf(db, u.id), shape))
  }

  function ViewOf(db: Db, shape: Shape, u: User): UserView
  {
    UserView(u.id, u.email, u.role, u.createdAt, ProfilesOf(db, shape, u),
             Count(db.jobs, JobOfRecruiter(u.id)), Count(db.apps, AppOfCandidate(u.id)))
  }

  function ViewIn(db: Db, shape: Shape): User -> UserView { (u: User) => ViewOf(db, shape, u) }

  /** The rows of the requested page: the window of the selected users, each as a row. */
  function PageRows(db: Db, uq: UserQuery, shape: Shape): seq<UserView>
  {
    Map(Window(Selected(db, uq), uq.offset, uq.limit), ViewIn(db, shape))
  }

  function Listed(db: Db, q: Query, shape: Shape): UserPage
  {
    var uq := QueryOf(q);
    UserPage(PageRows(db, uq, shape),
             PaginationOf(PageOf(q), LimitOf(q), |Selected(db, uq)|))
  }

  /**
   * The `GET` answer. A failing query is `queryError`; a range that starts past the exact
   * count is refused by the store and answered as that error.
   */
  function Respond(db: Db, header: Option<Token>, session: Session, q: Query, shape: Shape,
                   queryError: Option<string>): Reply<UserPage>
  {
    if Verify(db, header, session).Denied? then Fail(401, Unauthorized)
    else if queryError.Some? then Fail(500, queryError.value)
    else if RangeRefused(QueryOf(q).offset, |Selected(db, QueryOf(q))|) then Fail(500, RangeNotSatisfiable)
    else Ok(Listed(db, q, shape))
  }

  /**
   * With admin access and the store working, the answer is a page exactly when the offset
   * does not pass the number of selected users, and 500 otherwise; an offset at that number
   * gives an empty page that still reports the total.
   */
  lemma RefusedPastCount(db: Db, header: Option<Token>, session: Session, q: Query, shape: Shape)
    requires Verify(db, header, session).Granted?
    ensures var uq := QueryOf(q); var total := |Selected(db, uq)|;
      var r := Respond(db, header, session, q, shape, None);
      && (r.Ok? <==> uq.offset <= total)
      && (!r.Ok? ==> r == Fail(500, RangeNotSatisfiable))
      && (r.Ok? ==> r.body == Listed(db, q, shape))
      && (uq.offset == total ==> r.Ok? && r.body.users == [] && r.body.pagination.total == total)
  {
    PageIsWindow(db, QueryOf(q), shape);
  }

  /** The `DELETE` guards; the result is the id of the user to remove. */
  function DecideDelete(db: Db, header: Option<Token>, session: Session, body: DeleteBody): Reply<UserId>
  {
    var access := Verify(db, header, session);
    if access.Denied? then Fail(401, Unauthorized)
    else if body.userId.None? then Fail(400, "User ID is required")
    else if access.admin == DbAdmin(body.userId.value) then Fail(400, "Cannot delete yourself")
    else Ok(body.userId.value)
  }

  /**
   * The role filter applies only when a role is given: a user is selected exactly when the
   * role is absent or names the user's role. Without parameters the list starts at the first
   * row and holds at most 20 users.
   */
  lemma RoleFilter(db: Db, q: Query, u: User)
    ensures u in Selected(db, QueryOf(q)) <==> u in db.users && (Present(q.role) ==> RoleName(u.role) == q.role.value)
    ensures q == Query(None, None, None) ==> QueryOf(q) == UserQuery(None, 0, 20)
  {
    var s := Filter(db.users, MatchesOf(QueryOf(q)));
    ReverseMembership(s, u);
    if u in db.users && Matches(QueryOf(q), u) {
      var i :| 0 <= i < |db.users| && db.users[i] == u;
      assert u in s;
    }
  }

  /** The page is the window of the selected users from the query's offset on, at most `limit` of them. */
  lemma PageIsWindow(db: Db, uq: UserQuery, shape: Shape)
    ensures var sel := Selected(db, uq); var users := PageRows(db, uq, shape);
      && |users| <= (if uq.limit < 0 then 0 else uq.limit)
      && (0 <= uq.offset && 0 <= uq.limit && uq.offset + uq.limit <= |sel| ==> |users| == uq.limit)
      && (0 <= uq.offset < |sel| && 0 < uq.limit && |sel| < uq.offset + uq.limit ==> |users| == |sel| - uq.offset)
      && forall k :: 0 <= k < |users| ==> 0 <= uq.offset + k < |sel| && users[k] == ViewOf(db, shape, sel[uq.offset + k])
  {
    ViewWindow(Selected(db, uq), uq.offset, uq.limit, db, shape);
  }

  /**
   * The total counts every selected user, and with a positive limit the page count is the
   * least that holds them all.
   */
  lemma PaginationCounts(db: Db, q: Query, shape: Shape)
    ensures var p := Listed(db, q, shape).pagination;
      && p.total == |Selected(db, QueryOf(q))|
      && (p.limit > 0 ==> p.pages.Some? && p.pages.value >= 0 && p.pages.value * p.limit >= p.total
                          && (p.pages.value - 1) * p.limit < p.total)
  {
    var p := Listed(db, q, shape).pagination;
    if p.limit > 0 {
      CeilDivIsCeiling(p.total, p.limit);
    }
  }

  /** The views of a window of users are the views of the users from `offset` on. */
  lemma ViewWindow(sel: seq<User>, offset: int, limit: int, db: Db, shape: Shape)
    ensures var users := Map(Window(sel, offset, limit), ViewIn(db, shape));
      && |users| <= (if limit < 0 then 0 else limit)
      && (0 <= offset && 0 <= limit && offset + limit <= |sel| ==> |users| == limit)
      && (0 <= offset < |sel| && 0 < limit && |sel| < offset + limit ==> |users| == |sel| - offset)
      && forall k :: 0 <= k < |users| ==> 0 <= offset + k < |sel| && users[k] == ViewOf(db, shape, sel[offset + k])
  {
    MapWindow(sel, offset, limit, ViewIn(db, shape));
  }

  /** In a well-formed database the page lists its users newest first. */
  lemma NewestFirst(db: Db, q: Query, shape: Shape)
    requires WellFormed(db)
    ensures var users := PageRows(db, QueryOf(q), shape);
      forall i, k :: 0 <= i < k < |users| ==> users[i].createdAt > users[k].createdAt
  {
    var uq := QueryOf(q);
    var sel := Selected(db, uq);
    var w := Window(sel, uq.offset, uq.limit);
    FilterIncreasing(db.users, MatchesOf(uq), UserCreated);
    ReverseDecreasing(Filter(db.users, MatchesOf(uq)), UserCreated);
    WindowDecreasing(sel, uq.offset, uq.limit, UserCreated);
    var users := PageRows(db, uq, shape);
    forall i, k | 0 <= i < k < |users| ensures users[i].createdAt > users[k].createdAt {
      assert users[i].createdAt == UserCreated(w[i]) && users[k].createdAt == UserCreated(w[k]);
    }
  }

  /**
   * A candidate's row carries the candidate profiles and anyone else's the recruiter profiles;
   * a user who posted no job shows a job count of zero.
   */
  lemma RowContents(db: Db, shape: Shape, u: User)
    ensures ViewOf(db, shape, u).profile.CandidateProfiles? <==> u.role == CANDIDATE
    ensures FirstRow(ViewOf(db, shape, u).profile.candidate) == CandidateProfileOf(db, u.id) <== u.role == CANDIDATE
    ensures u.role != CANDIDATE ==> FirstRow(ViewOf(db, shape, u).profile.recruiter) == RecruiterProfileOf(db, u.id)
    ensures (forall j :: 0 <= j < |db.jobs| ==> db.jobs[j].recruiterId != u.id) ==> ViewOf(db, shape, u).jobsCount == 0
  {
    FirstRowOfEmbed(CandidateProfileOf(db, u.id), shape);
    FirstRowOfEmbed(RecruiterProfileOf(db, u.id), shape);
    if forall j :: 0 <= j < |db.jobs| ==> db.jobs[j].recruiterId != u.id {
      FilterNone(db.jobs, JobOfRecruiter(u.id));
    }
  }

  /**
   * The `DELETE` guards: without admin access 401; without a user id 400; a database admin
   * naming their own id 400 before anything is removed; the super admin may remove anyone.
   */
  lemma DeleteGuards(db: Db, header: Option<Token>, session: Session, body: DeleteBody)
    ensures Verify(db, header, session).Denied? ==> DecideDelete(db, header, session, body) == Fail(401, Unauthorized)
    ensures Verify(db, header, session).Granted? && body.userId.None? ==>
      DecideDelete(db, header, session, body) == Fail(400, "User ID is required")
    ensures Verify(db, header, session) == Granted(DbAdmin(body.userId.GetOr(0))) && body.userId.Some? ==>
      DecideDelete(db, header, session, body) == Fail(400, "Cannot delete yourself")
    ensures Verify(db, header, session) == Granted(SuperAdmin) && body.userId.Some? ==>
      DecideDelete(db, header, session, body) == Ok(body.userId.value)
  {
  }

  /** The `GET` handler; the query is refined by reassignment when a role is given. */
  method Get(st: Store, header: Option<Token>, session: Session, q: Query, shape: Shape,
             queryError: Option<string>) returns (r: Reply<UserPage>)
    ensures r == Respond(st.View(), header, session, q, shape, queryError)
  {
    var db := st.View();
    var access := Verify(db, header, session);
    if access.Denied? {
      return Fail(401, Unauthorized);
    }
    var page := q.page.GetOr(1);
    var limit := q.limit.GetOr(20);
    var offset := (page - 1) * limit;

    var query := UserQuery(None, offset, limit);
    if Present(q.role) {
      query := query.(role := q.role);
    }
    assert query == QueryOf(q);

    if queryError.Some? {
      return Fail(500, queryError.value);
    }
    var selected := Selected(db, query);
    if offset > |selected| {
      return Fail(500, RangeNotSatisfiable);
    }
    var users := Map(Window(selected, query.offset, query.limit), (u: User) => ViewOf(db, shape, u));
    return Ok(UserPage(users, PaginationOf(page, limit, |selected|)));
  }

  /**
   * The `DELETE` handler. The identity provider removing the account, and with it the `users`
   * row, failing is `deleteError`.
   */
  method Delete(st: Store, header: Option<Token>, session: Session, body: DeleteBody,
                deleteError: Option<string>) returns (r: Reply<string>)
    requires st.Valid()
    modifies st
    ensures st.Valid()
    ensures var d := DecideDelete(old(st.View()), header, session, body);
      && (d.Fail? ==> r == Fail(d.code, d.message) && st.View() == old(st.View()))
      && (d.Ok? && deleteError.Some? ==> r == Fail(500, deleteError.value) && st.View() == old(st.View()))
      && (d.Ok? && deleteError.None? ==>
            && r == Ok("User deleted successfully")
            && st.View() == old(st.View()).(users := Filter(old(st.users), UserNot(d.body)),
                                           accounts := Filter(old(st.accounts), AccountNot(d.body))))
  {
    var access := Verify(st.View(), header, session);
    if access.Denied? {
      return Fail(401, Unauthorized);
    }
    if body.userId.None? {
      return Fail(400, "User ID is required");
    }
    if access.admin.DbAdmin? && body.userId.value == access.admin.id {
      return Fail(400, "Cannot delete yourself");
    }
    if deleteError.Some? {
      return Fail(500, deleteError.value);
    }
    st.DeleteUser(body.userId.value);
    return Ok("User deleted successfully");
  }
}

/**
 * Users handler: the scoping of user reads by the caller's role, and the Admin-only role
 * update, which changes the identity provider's role attribute and then the user record.
 */
module Users {
  import opened Wrappers
  import opened Http
  import opened Store
  import opened Auth

  /** The only roles an update may assign. */
  const ROLES: seq<string> := [PLAYER, GROUP_LEADER, ADMIN]

  /** GET /users query parameters. */
  datatype UserQuery = UserQuery(email: Option<string>, role: Option<string>)

  /** Which users a read returns. */
  datatype Scope = WithEmail(email: string) | Own(userId: string) | WithRole(role: string) | Everyone

  /**
   * Non-Admins: the email lookup when an email is given, else only their own record (a
   * role filter is ignored). Admins: the email filter beats the role filter; neither lists all.
   */
  function ScopeFor(user: CurrentUser, q: UserQuery): (s: Scope)
    ensures Present(q.email) ==> s == WithEmail(q.email.value)
    ensures !IsAdmin(user) && !Present(q.email) ==> s == Own(user.userId)
    ensures IsAdmin(user) && !Present(q.email) && Present(q.role) ==> s == WithRole(q.role.value)
    ensures IsAdmin(user) && !Present(q.email) && !Present(q.role) ==> s == Everyone
    ensures s.WithRole? || s.Everyone? ==> IsAdmin(user)
  {
    if !IsAdmin(user) then
      if Present(q.email) then WithEmail(q.email.value) else Own(user.userId)
    else if Present(q.email) then WithEmail(q.email.value)
    else if Present(q.role) then WithRole(q.role.value)
    else Everyone
  }

  predicate InScope(s: Scope, u: User) {
    match s
    case WithEmail(e) => u.email == Some(e)
    case Own(id) => u.userId == id
    case WithRole(r) => u.role == r
    case Everyone => true
  }

  /** GET /users: the stored users within the caller's scope. */
  function GetUsers(user: CurrentUser, q: UserQuery, users: map<string, User>): (r: set<User>)
    ensures forall u :: u in r <==> u in users.Values && InScope(ScopeFor(user, q), u)
  {
    set u | u in users.Values && InScope(ScopeFor(user, q), u)
  }

  /** A non-Admin without an email query sees at most their own record, whatever the role filter. */
  lemma OwnRecordOnly(user: CurrentUser, q: UserQuery, users: map<string, User>)
    requires !IsAdmin(user) && !Present(q.email)
    requires UsersKeyed(users)
    ensures GetUsers(user, q, users) == (if user.userId in users then {users[user.userId]} else {})
    ensures |GetUsers(user, q, users)| <= 1
  {
    var r := GetUsers(user, q, users);
    forall u | u in r
      ensures user.userId in users && u == users[user.userId]
    {
      var k :| k in users && users[k] == u;
    }
    if user.userId in users {
      assert users[user.userId] in r;
      assert r == {users[user.userId]};
    } else {
      assert r == {};
    }
  }

  /** The body of POST /users once parsed; an absent field is None. */
  datatype RoleBody = RoleBody(userId: Option<string>, role: Option<string>)

  datatype RoleRequest = Refuse(status: int, message: string) | Grant(userId: string, role: string)

  /** The Admin gate (before the body is parsed), then the required fields, then the role. */
  function CheckRoleUpdate(user: CurrentUser, body: Option<RoleBody>): (r: RoleRequest)
    ensures !IsAdmin(user) ==> r == Refuse(403, "Forbidden: Admin role required")
    ensures IsAdmin(user) && body.None? ==> r == Refuse(400, "Invalid JSON in request body")
    ensures IsAdmin(user) && body.Some? && (!Present(body.value.userId) || !Present(body.value.role)) ==>
      r == Refuse(400, "userId and role are required")
    ensures (IsAdmin(user) && body.Some? && Present(body.value.userId) && Present(body.value.role)
             && body.value.role.value !in ROLES) ==> r.Refuse? && r.status == 400
    ensures r.Grant? <==> (IsAdmin(user) && body.Some? && Present(body.value.userId)
                           && Present(body.value.role) && body.value.role.value in ROLES)
    ensures r.Grant? ==> r.userId == body.value.userId.value && r.role == body.value.role.value
    ensures r.Grant? ==> r.role == PLAYER || r.role == GROUP_LEADER || r.role == ADMIN
  {
    if !IsAdmin(user) then Refuse(403, "Forbidden: Admin role required")
    else if body.None? then Refuse(400, "Invalid JSON in request body")
    else
      var b := body.value;
      if !Present(b.userId) || !Present(b.role) then Refuse(400, "userId and role are required")
      else if b.role.value !in ROLES then Refuse(400, "Invalid role. Must be Player, GroupLeader, or Admin")
      else Grant(b.userId.value, b.role.value)
  }

  /** The record after `SET role, updatedAt`: an existing user keeps every other field; a missing one is created. */
  function SetRole(users: map<string, User>, userId: string, role: string, updatedAt: string): (u: User)
    ensures u.role == role && u.updatedAt == Some(updatedAt)
    ensures userId in users ==> u == users[userId].(role := role, updatedAt := Some(updatedAt))
    ensures userId !in users ==> u.userId == userId && u.email == None && u.name == None
  {
    if userId in users then users[userId].(role := role, updatedAt := Some(updatedAt))
    else User(userId, None, None, role, Some(updatedAt))
  }

  /**
   * POST /users. `providerOk` is the outcome of the identity-provider update, which
   * happens first; when it fails the store is not touched and the answer is 500.
   */
  method HandlePost(db: Db, user: CurrentUser, body: Option<RoleBody>, providerOk: bool, updatedAt: string)
    returns (r: Response<User>)
    requires db.Valid()
    modifies db`users
    ensures db.Valid()
    ensures var c := CheckRoleUpdate(user, body);
      && (c.Refuse? ==> r == Error(c.status, c.message) && db.users == old(db.users))
      && (c.Grant? && !providerOk ==> r == Error(500, "Failed to update user role") && db.users == old(db.users))
      && (c.Grant? && providerOk ==>
            && r == Ok(200, SetRole(old(db.users), c.userId, c.role, updatedAt))
            && db.users == old(db.users)[c.userId := r.body])
    ensures forall k :: k in old(db.users) && (r.Error? || k != CheckRoleUpdate(user, body).userId) ==>
      k in db.users && db.users[k] == old(db.users)[k]
  {
    var c := CheckRoleUpdate(user, body);
    if c.Refuse? {
      return Error(c.status, c.message);
    }
    if !providerOk {
      return Error(500, "Failed to update user role");
    }
    var updated := SetRole(db.users, c.userId, c.role, updatedAt);
    db.users := db.users[c.userId := updated];
    r := Ok(200, updated);
  }
}

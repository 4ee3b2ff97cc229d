/**
 * backend/src/controllers/userController.js: the users of one tenant. Adding a user
 * is for a tenant_admin of that tenant only, bounded by max_users, with emails unique
 * (lower-cased) within the tenant. A user may edit their own name; role and active
 * flag need a tenant_admin of the user's tenant. Deleting a user (never oneself)
 * unassigns their tasks instead of deleting them.
 */
module UserController {
  import opened Wrappers
  import opened Domain
  import opened Text
  import opened Database
  import opened Paging

  /** The validated body of `POST /tenants/:tenantId/users`. */
  datatype NewUser = NewUser(email: string, password: string, fullName: string, role: Option<Role>)

  /** The body of `PUT /tenants/:tenantId/users/:userId`; `None` is a field left undefined. */
  datatype UserPatch = UserPatch(fullName: Option<string>, role: Option<Role>, isActive: Option<bool>)

  /** The query string of `GET /tenants/:tenantId/users`. */
  datatype UserQuery = UserQuery(search: Option<string>, role: Option<string>)

  predicate UserMatches(u: User, q: UserQuery) {
    && (Truthy(q.search) ==> ILike(u.email, q.search.value) || ILike(u.fullName, q.search.value))
    && (Truthy(q.role) ==> RoleName(u.role) == q.role.value)
  }

  /** `SELECT id FROM users WHERE tenant_id = $1 AND email = $2` finds a row. */
  predicate EmailTaken(users: map<Id, User>, tenantId: Id, email: string) {
    exists k :: k in users && users[k].tenantId == Some(tenantId) && users[k].email == email
  }

  /** The caller is a tenant_admin of `tenantId`. */
  predicate IsAdminOf(p: Principal, tenantId: Id) {
    p.role == TenantAdmin && p.tenantId == Some(tenantId)
  }

  /** `isTenantAdmin` of updateUser: a tenant_admin in the target user's tenant. */
  predicate IsAdminOver(p: Principal, target: User) {
    p.role == TenantAdmin && target.tenantId == p.tenantId
  }

  predicate HasUserFields(patch: UserPatch, admin: bool) {
    patch.fullName.Some? || (admin && (patch.role.Some? || patch.isActive.Some?))
  }

  /** The row `UPDATE users SET ...` leaves: the name when supplied, role and active flag
      only when supplied by an admin; tenant, email and password never change. */
  function ApplyUserPatch(u: User, patch: UserPatch, admin: bool): (v: User)
    ensures v.tenantId == u.tenantId && v.email == u.email && v.passwordHash == u.passwordHash
    ensures v.fullName == (if patch.fullName.Some? then patch.fullName.value else u.fullName)
    ensures v.role == (if admin && patch.role.Some? then patch.role.value else u.role)
    ensures v.isActive == (if admin && patch.isActive.Some? then patch.isActive.value else u.isActive)
    ensures !HasUserFields(patch, admin) ==> v == u
  {
    u.(fullName := patch.fullName.GetOr(u.fullName),
       role := if admin then patch.role.GetOr(u.role) else u.role,
       isActive := if admin then patch.isActive.GetOr(u.isActive) else u.isActive)
  }

  /** addUser (userController.js:7-68). */
  method AddUser(db: Db, p: Principal, tenantId: Id, req: NewUser, hash: string -> string, newId: Id)
    returns (r: Result<Id>)
    requires db.Valid()
    requires |req.password| >= 8
    requires req.role.None? || req.role.value != SuperAdmin
    modifies db
    ensures db.Valid()
    ensures r.Fail? ==> unchanged(db)
    ensures db.tenants == old(db.tenants) && db.projects == old(db.projects) && db.tasks == old(db.tasks)
    ensures r == Fail(Forbidden) <==> !IsAdminOf(p, tenantId)
    ensures r == Fail(NotFound) <==> IsAdminOf(p, tenantId) && tenantId !in old(db.tenants)
    ensures r == Fail(LimitReached) <==>
      && IsAdminOf(p, tenantId) && tenantId in old(db.tenants)
      && |UsersOf(old(db.users), tenantId)| >= old(db.tenants)[tenantId].maxUsers
    ensures r == Fail(Conflict) <==>
      && IsAdminOf(p, tenantId) && tenantId in old(db.tenants)
      && |UsersOf(old(db.users), tenantId)| < old(db.tenants)[tenantId].maxUsers
      && EmailTaken(old(db.users), tenantId, ToLower(req.email))
    ensures r == Fail(Internal) <==>
      && IsAdminOf(p, tenantId) && tenantId in old(db.tenants)
      && |UsersOf(old(db.users), tenantId)| < old(db.tenants)[tenantId].maxUsers
      && !EmailTaken(old(db.users), tenantId, ToLower(req.email))
      && newId in old(db.users)
    ensures r.Ok? || r.err in {Forbidden, NotFound, LimitReached, Conflict, Internal}
    ensures r.Ok? ==>
      && r.value == newId
      && IsAdminOf(p, tenantId) && tenantId in old(db.tenants)
      && newId !in old(db.users)
      && db.users == old(db.users)[newId := User(Some(tenantId), ToLower(req.email), hash(req.password),
                                                 req.fullName, req.role.GetOr(Member), true)]
      && |UsersOf(db.users, tenantId)| == |UsersOf(old(db.users), tenantId)| + 1
      && |UsersOf(db.users, tenantId)| <= db.tenants[tenantId].maxUsers
      && db.audit == old(db.audit) + [AuditEntry(Some(tenantId), p.userId, "CREATE_USER", "user", newId)]
  {
    if p.role != TenantAdmin || p.tenantId != Some(tenantId) {
      return Fail(Forbidden);
    }
    if tenantId !in db.tenants {
      return Fail(NotFound);
    }
    var tenant := db.tenants[tenantId];
    if |UsersOf(db.users, tenantId)| >= tenant.maxUsers {
      return Fail(LimitReached);
    }
    var email := ToLower(req.email);
    if EmailTaken(db.users, tenantId, email) {
      return Fail(Conflict);
    }
    if newId in db.users {
      // the INSERT violates the primary key
      return Fail(Internal);
    }
    var user := User(Some(tenantId), email, hash(req.password), req.fullName, req.role.GetOr(Member), true);
    UsersOfInsert(db.users, newId, user, tenantId);
    db.users := db.users[newId := user];
    db.audit := db.audit + [AuditEntry(Some(tenantId), p.userId, "CREATE_USER", "user", newId)];
    r := Ok(newId);
  }

  /** listUsers (userController.js:71-136). */
  method ListUsers(db: Db, p: Principal, tenantId: Id, q: UserQuery, page: int, limit: int)
    returns (r: Result<Listing<Id, User>>)
    requires page >= 1 && limit >= 1
    ensures r == Fail(Forbidden) <==> p.role != SuperAdmin && p.tenantId != Some(tenantId)
    ensures r.Ok? || r == Fail(Forbidden)
    ensures r.Ok? ==>
      && (forall k :: k in r.value.rows <==> k in db.users && db.users[k].tenantId == Some(tenantId) && UserMatches(db.users[k], q))
      && (forall k :: k in r.value.rows ==> r.value.rows[k] == db.users[k])
      && r.value.total == |r.value.rows|
      && r.value.offset == (page - 1) * limit
      && r.value.totalPages * limit >= r.value.total
      && (r.value.totalPages > 0 ==> (r.value.totalPages - 1) * limit < r.value.total)
  {
    if p.role != SuperAdmin && p.tenantId != Some(tenantId) {
      return Fail(Forbidden);
    }
    var rows := map k | k in db.users && db.users[k].tenantId == Some(tenantId) && UserMatches(db.users[k], q) :: db.users[k];
    var total := |rows|;
    r := Ok(Listing(rows, total, Offset(page, limit), TotalPages(total, limit)));
  }

  /** The SET list of updateUser (userController.js:168-185). */
  method UserSetList(u: User, patch: UserPatch, admin: bool) returns (updated: User, fields: nat)
    ensures updated == ApplyUserPatch(u, patch, admin)
    ensures fields == 0 <==> !HasUserFields(patch, admin)
  {
    updated, fields := u, 0;
    if patch.fullName.Some? {
      updated, fields := updated.(fullName := patch.fullName.value), fields + 1;
    }
    if patch.role.Some? && admin {
      updated, fields := updated.(role := patch.role.value), fields + 1;
    }
    if patch.isActive.Some? && admin {
      updated, fields := updated.(isActive := patch.isActive.value), fields + 1;
    }
  }

  /** updateUser (userController.js:139-217). */
  method UpdateUser(db: Db, p: Principal, userId: Id, patch: UserPatch) returns (r: Result<User>)
    requires db.Valid()
    modifies db
    ensures db.Valid()
    ensures r.Fail? ==> unchanged(db)
    ensures db.tenants == old(db.tenants) && db.projects == old(db.projects) && db.tasks == old(db.tasks)
    ensures r == Fail(NotFound) <==> userId !in old(db.users)
    ensures r == Fail(Forbidden) <==>
      && userId in old(db.users)
      && !IsAdminOver(p, old(db.users)[userId])
      && (userId != p.userId || patch.role.Some? || patch.isActive.Some?)
    ensures r == Fail(BadRequest) <==>
      && userId in old(db.users)
      && (IsAdminOver(p, old(db.users)[userId]) || (userId == p.userId && patch.role.None? && patch.isActive.None?))
      && !HasUserFields(patch, IsAdminOver(p, old(db.users)[userId]))
    ensures r.Ok? || r == Fail(NotFound) || r == Fail(Forbidden) || r == Fail(BadRequest)
    ensures r.Ok? ==>
      && userId in old(db.users)
      && (userId == p.userId || IsAdminOver(p, old(db.users)[userId]))
      && (patch.role.Some? || patch.isActive.Some? ==> IsAdminOver(p, old(db.users)[userId]))
      && r.value == ApplyUserPatch(old(db.users)[userId], patch, IsAdminOver(p, old(db.users)[userId]))
      && db.users == old(db.users)[userId := r.value]
      && db.audit == old(db.audit) + [AuditEntry(old(db.users)[userId].tenantId, p.userId, "UPDATE_USER", "user", userId)]
  {
    if userId !in db.users {
      return Fail(NotFound);
    }
    var user := db.users[userId];
    var isSelf := userId == p.userId;
    var isTenantAdmin := p.role == TenantAdmin && user.tenantId == p.tenantId;
    if !isSelf && !isTenantAdmin {
      return Fail(Forbidden);
    }
    if (patch.role.Some? || patch.isActive.Some?) && !isTenantAdmin {
      return Fail(Forbidden);
    }
    var updated, fields := UserSetList(user, patch, isTenantAdmin);
    if fields == 0 {
      return Fail(BadRequest);
    }
    db.users := db.users[userId := updated];
    db.audit := db.audit + [AuditEntry(user.tenantId, p.userId, "UPDATE_USER", "user", userId)];
    r := Ok(updated);
  }

  /** deleteUser (userController.js:220-267). */
  method DeleteUser(db: Db, p: Principal, userId: Id) returns (r: Result<Id>)
    requires db.Valid()
    modifies db
    ensures db.Valid()
    ensures r.Fail? ==> unchanged(db)
    ensures db.tenants == old(db.tenants) && db.projects == old(db.projects)
    ensures r == Fail(Forbidden) <==>
      || userId == p.userId
      || p.role != TenantAdmin
      || (userId in old(db.users) && old(db.users)[userId].tenantId != p.tenantId)
    ensures r == Fail(NotFound) <==> userId != p.userId && p.role == TenantAdmin && userId !in old(db.users)
    ensures r.Ok? || r == Fail(NotFound) || r == Fail(Forbidden)
    ensures r.Ok? ==>
      && r.value == userId
      && userId != p.userId && p.role == TenantAdmin
      && userId in old(db.users) && old(db.users)[userId].tenantId == p.tenantId
      && db.users == old(db.users) - {userId}
      && db.tasks == Unassign(old(db.tasks), userId)
      && db.audit == old(db.audit) + [AuditEntry(p.tenantId, p.userId, "DELETE_USER", "user", userId)]
  {
    if userId == p.userId {
      return Fail(Forbidden);
    }
    if p.role != TenantAdmin {
      return Fail(Forbidden);
    }
    if userId !in db.users {
      return Fail(NotFound);
    }
    var user := db.users[userId];
    if user.tenantId != p.tenantId {
      return Fail(Forbidden);
    }
    db.tasks := Unassign(db.tasks, userId);
    db.users := db.users - {userId};
    db.audit := db.audit + [AuditEntry(p.tenantId, p.userId, "DELETE_USER", "user", userId)];
    r := Ok(userId);
  }
}

/**
 * backend/src/controllers/authController.js: self-service tenant registration (one
 * transaction inserting the tenant, its first tenant_admin and the audit entry),
 * login scoped to a tenant subdomain or, without one, to super_admin accounts, the
 * current-user lookup and logout. Password hashing and comparison are parameters;
 * the token signed at login is represented by the claims it carries.
 */
module AuthController {
  import opened Wrappers
  import opened Text
  import opened Domain
  import opened Database

  /** The validated body of `POST /auth/register-tenant`. */
  datatype Registration = Registration(
    tenantName: string,
    subdomain: string,
    adminEmail: string,
    adminPassword: string,
    adminFullName: string)

  /** The response of a registration: the admin's e-mail is echoed as submitted. */
  datatype Registered = Registered(tenantId: Id, subdomain: string, adminId: Id, adminEmail: string)

  /** The validated body of `POST /auth/login`. */
  datatype Credentials = Credentials(email: string, password: string, tenantSubdomain: Option<string>)

  /** The response of `GET /auth/me`. */
  datatype CurrentUser = CurrentUser(
    id: Id,
    email: string,
    fullName: string,
    role: Role,
    isActive: bool,
    tenant: Option<Tenant>)

  predicate SubdomainTaken(tenants: map<Id, Tenant>, subdomain: string) {
    exists k :: k in tenants && tenants[k].subdomain == subdomain
  }

  /** Registration looks the e-mail up across all tenants, not only the new one. */
  predicate EmailRegistered(users: map<Id, User>, email: string) {
    exists k :: k in users && users[k].email == email
  }

  /** `t` is the tenant reached through subdomain `s`. */
  predicate NamesTenant(tenants: map<Id, Tenant>, s: string, t: Id) {
    t in tenants && tenants[t].subdomain == s
  }

  /** The login lookup: by e-mail within tenant `scope`, or among super_admins without one. */
  predicate LoginMatch(u: User, email: string, scope: Option<Id>) {
    u.email == email && (if scope.Some? then u.tenantId == scope else u.role == SuperAdmin)
  }

  /** The end of the login chain once the account row is read: an inactive account is
      refused before the password is compared, a wrong password is 401, and otherwise
      the token carries the account's id, tenant and role. */
  function AccountOutcome(users: map<Id, User>, u: Id, password: string, passwordMatches: (string, string) -> bool)
    : (r: Result<Principal>)
    requires u in users
    ensures r == Fail(Forbidden) <==> !users[u].isActive
    ensures r == Fail(Unauthorized) <==> users[u].isActive && !passwordMatches(password, users[u].passwordHash)
    ensures r.Ok? <==> users[u].isActive && passwordMatches(password, users[u].passwordHash)
    ensures r.Ok? ==> r.value == Principal(u, users[u].tenantId, users[u].role)
  {
    if !users[u].isActive then Fail(Forbidden)
    else if !passwordMatches(password, users[u].passwordHash) then Fail(Unauthorized)
    else Ok(Principal(u, users[u].tenantId, users[u].role))
  }

  function FreeTenant(name: string, subdomain: string): (t: Tenant)
    ensures t.status == ActiveStatus && t.plan == FreePlan
    ensures t.maxUsers == FreeMaxUsers && t.maxProjects == FreeMaxProjects
    ensures t.name == name && t.subdomain == subdomain
  {
    Tenant(name, subdomain, ActiveStatus, FreePlan, FreeMaxUsers, FreeMaxProjects)
  }

  /** registerTenant (authController.js:8-75). `tenantId` and `userId` are the two fresh
      uuids; one that already names a row makes its INSERT fail, and the ROLLBACK then
      undoes whatever the transaction had inserted. */
  method RegisterTenant(db: Db, req: Registration, hash: string -> string, tenantId: Id, userId: Id)
    returns (r: Result<Registered>)
    requires db.Valid()
    requires |req.tenantName| >= 3 && 3 <= |req.subdomain| <= 63 && |req.adminPassword| >= 8
    modifies db
    ensures db.Valid()
    ensures r.Fail? ==> unchanged(db)
    ensures db.projects == old(db.projects) && db.tasks == old(db.tasks)
    ensures r == Fail(Conflict) <==>
      SubdomainTaken(old(db.tenants), ToLower(req.subdomain)) || EmailRegistered(old(db.users), ToLower(req.adminEmail))
    ensures r == Fail(Internal) <==>
      && !SubdomainTaken(old(db.tenants), ToLower(req.subdomain))
      && !EmailRegistered(old(db.users), ToLower(req.adminEmail))
      && (tenantId in old(db.tenants) || userId in old(db.users))
    ensures r.Ok? || r == Fail(Conflict) || r == Fail(Internal)
    ensures r.Ok? ==>
      && r.value == Registered(tenantId, ToLower(req.subdomain), userId, req.adminEmail)
      && db.tenants == old(db.tenants)[tenantId := FreeTenant(req.tenantName, ToLower(req.subdomain))]
      && db.users == old(db.users)[userId := User(Some(tenantId), ToLower(req.adminEmail), hash(req.adminPassword),
                                                  req.adminFullName, TenantAdmin, true)]
      && UsersOf(db.users, tenantId) == {userId}
      && ProjectsOf(db.projects, tenantId) == {}
      && db.audit == old(db.audit) + [AuditEntry(Some(tenantId), userId, "REGISTER_TENANT", "tenant", tenantId)]
  {
    var subdomain := ToLower(req.subdomain);
    if SubdomainTaken(db.tenants, subdomain) {
      return Fail(Conflict);
    }
    var email := ToLower(req.adminEmail);
    if EmailRegistered(db.users, email) {
      return Fail(Conflict);
    }
    // BEGIN
    var savedTenants := db.tenants;
    var passwordHash := hash(req.adminPassword);
    if tenantId in db.tenants {
      return Fail(Internal);
    }
    db.tenants := db.tenants[tenantId := FreeTenant(req.tenantName, subdomain)];
    if userId in db.users {
      // ROLLBACK
      db.tenants := savedTenants;
      return Fail(Internal);
    }
    db.users := db.users[userId := User(Some(tenantId), email, passwordHash, req.adminFullName, TenantAdmin, true)];
    db.audit := db.audit + [AuditEntry(Some(tenantId), userId, "REGISTER_TENANT", "tenant", tenantId)];
    // COMMIT
    assert UsersOf(db.users, tenantId) == {userId};
    assert ProjectsOf(db.projects, tenantId) == {};
    r := Ok(Registered(tenantId, subdomain, userId, req.adminEmail));
  }

  /** login (authController.js:78-159). The user query has no ORDER BY: when several
      super_admin accounts share the e-mail, any one of them is the row read. The result
      is the claims of the signed token. */
  method Login(db: Db, req: Credentials, passwordMatches: (string, string) -> bool) returns (r: Result<Principal>)
    requires db.Valid()
    modifies db
    ensures db.Valid()
    ensures r.Fail? ==> unchanged(db)
    ensures db.tenants == old(db.tenants) && db.users == old(db.users)
    ensures db.projects == old(db.projects) && db.tasks == old(db.tasks)
    ensures r.Ok? || r == Fail(NotFound) || r == Fail(Forbidden) || r == Fail(Unauthorized)
    // with a subdomain: the tenant must exist and be active
    ensures Truthy(req.tenantSubdomain) ==>
      (r == Fail(NotFound) <==> forall t :: !NamesTenant(db.tenants, ToLower(req.tenantSubdomain.value), t))
    ensures forall t ::
      (&& Truthy(req.tenantSubdomain)
       && NamesTenant(db.tenants, ToLower(req.tenantSubdomain.value), t)
       && db.tenants[t].status != ActiveStatus)
      ==> r == Fail(Forbidden)
    // with an active tenant the account is unique, and the outcome follows its row
    ensures forall t, u ::
      (&& Truthy(req.tenantSubdomain)
       && NamesTenant(db.tenants, ToLower(req.tenantSubdomain.value), t)
       && db.tenants[t].status == ActiveStatus
       && u in db.users
       && LoginMatch(db.users[u], ToLower(req.email), Some(t)))
      ==> r == AccountOutcome(db.users, u, req.password, passwordMatches)
    ensures forall t ::
      (&& Truthy(req.tenantSubdomain)
       && NamesTenant(db.tenants, ToLower(req.tenantSubdomain.value), t)
       && db.tenants[t].status == ActiveStatus
       && (forall u :: u in db.users ==> !LoginMatch(db.users[u], ToLower(req.email), Some(t))))
      ==> r == Fail(Unauthorized)
    // without a subdomain only super_admin accounts are considered
    ensures !Truthy(req.tenantSubdomain) ==> r != Fail(NotFound)
    ensures !Truthy(req.tenantSubdomain) && (forall u :: u in db.users ==> !LoginMatch(db.users[u], ToLower(req.email), None))
      ==> r == Fail(Unauthorized)
    // when super_admin accounts match, the outcome follows the row of one of them
    ensures !Truthy(req.tenantSubdomain) && (exists u :: u in db.users && LoginMatch(db.users[u], ToLower(req.email), None))
      ==> exists u :: u in db.users && LoginMatch(db.users[u], ToLower(req.email), None)
                      && r == AccountOutcome(db.users, u, req.password, passwordMatches)
    ensures r.Ok? ==>
      && var u := r.value.userId;
      && u in db.users
      && db.users[u].email == ToLower(req.email)
      && db.users[u].isActive
      && passwordMatches(req.password, db.users[u].passwordHash)
      && r.value == Principal(u, db.users[u].tenantId, db.users[u].role)
      && (Truthy(req.tenantSubdomain) ==>
            r.value.tenantId.Some? && NamesTenant(db.tenants, ToLower(req.tenantSubdomain.value), r.value.tenantId.value)
            && db.tenants[r.value.tenantId.value].status == ActiveStatus)
      && (!Truthy(req.tenantSubdomain) ==> r.value.role == SuperAdmin)
      && db.audit == old(db.audit) + [AuditEntry(r.value.tenantId, u, "LOGIN", "user", u)]
  {
    var email := ToLower(req.email);
    var scope: Option<Id> := None;
    if Truthy(req.tenantSubdomain) {
      var sub := ToLower(req.tenantSubdomain.value);
      if !exists t :: t in db.tenants && NamesTenant(db.tenants, sub, t) {
        return Fail(NotFound);
      }
      var t :| t in db.tenants && NamesTenant(db.tenants, sub, t);
      if db.tenants[t].status != ActiveStatus {
        return Fail(Forbidden);
      }
      scope := Some(t);
    }
    if !exists u :: u in db.users && LoginMatch(db.users[u], email, scope) {
      return Fail(Unauthorized);
    }
    var u :| u in db.users && LoginMatch(db.users[u], email, scope);
    var user := db.users[u];
    if !user.isActive {
      r := Fail(Forbidden);
      assert r == AccountOutcome(db.users, u, req.password, passwordMatches);
      return;
    }
    if !passwordMatches(req.password, user.passwordHash) {
      r := Fail(Unauthorized);
      assert r == AccountOutcome(db.users, u, req.password, passwordMatches);
      return;
    }
    db.audit := db.audit + [AuditEntry(user.tenantId, u, "LOGIN", "user", u)];
    r := Ok(Principal(u, user.tenantId, user.role));
  }

  /** getCurrentUser (authController.js:162-209). The tenant shown is the one named in
      the token, looked up only when that id is truthy. */
  method GetCurrentUser(db: Db, p: Principal) returns (r: Result<CurrentUser>)
    ensures r == Fail(NotFound) <==> p.userId !in db.users
    ensures r.Ok? || r == Fail(NotFound)
    ensures r.Ok? ==>
      && p.userId in db.users
      && var u := db.users[p.userId];
      && r.value.id == p.userId
      && r.value.email == u.email && r.value.fullName == u.fullName
      && r.value.role == u.role && r.value.isActive == u.isActive
      && (r.value.tenant.Some? <==> Truthy(p.tenantId) && p.tenantId.value in db.tenants)
      && (r.value.tenant.Some? ==> r.value.tenant.value == db.tenants[p.tenantId.value])
  {
    if p.userId !in db.users {
      return Fail(NotFound);
    }
    var u := db.users[p.userId];
    var tenant: Option<Tenant> := None;
    if Truthy(p.tenantId) && p.tenantId.value in db.tenants {
      tenant := Some(db.tenants[p.tenantId.value]);
    }
    r := Ok(CurrentUser(p.userId, u.email, u.fullName, u.role, u.isActive, tenant));
  }

  /** logout (authController.js:212-225): the token stays valid; only the audit entry
      records the event. */
  method Logout(db: Db, p: Principal)
    requires db.Valid()
    modifies db
    ensures db.Valid()
    ensures db.tenants == old(db.tenants) && db.users == old(db.users)
    ensures db.projects == old(db.projects) && db.tasks == old(db.tasks)
    ensures db.audit == old(db.audit) + [AuditEntry(p.tenantId, p.userId, "LOGOUT", "user", p.userId)]
  {
    db.audit := db.audit + [AuditEntry(p.tenantId, p.userId, "LOGOUT", "user", p.userId)];
  }
}

/**
 * backend/src/controllers/tenantController.js: tenant details with usage counts,
 * tenant settings, and the list of all tenants. Unlike the project and task
 * controllers, these checks let a super_admin through to any tenant; only a
 * super_admin may change status, plan or limits, or list tenants.
 */
module TenantController {
  import opened Wrappers
  import opened Domain
  import opened Database
  import opened Paging

  /** The body of `PUT /tenants/:tenantId`; `None` is a field left undefined. */
  datatype TenantPatch = TenantPatch(
    name: Option<string>,
    status: Option<string>,
    plan: Option<string>,
    maxUsers: Option<int>,
    maxProjects: Option<int>)

  /** The query string of `GET /tenants`. */
  datatype TenantQuery = TenantQuery(status: Option<string>, plan: Option<string>)

  datatype TenantDetails = TenantDetails(tenant: Tenant, totalUsers: nat, totalProjects: nat, totalTasks: nat)

  datatype TenantSummary = TenantSummary(tenant: Tenant, totalUsers: nat, totalProjects: nat)

  /** `userRole === 'super_admin' || userTenantId === tenantId` */
  predicate CanSeeTenant(p: Principal, tenantId: Id) {
    p.role == SuperAdmin || p.tenantId == Some(tenantId)
  }

  /** `status || subscriptionPlan || maxUsers !== undefined || maxProjects !== undefined` */
  predicate TouchesRestricted(patch: TenantPatch) {
    Truthy(patch.status) || Truthy(patch.plan) || patch.maxUsers.Some? || patch.maxProjects.Some?
  }

  predicate HasTenantFields(patch: TenantPatch, super: bool) {
    || patch.name.Some?
    || (super && (patch.status.Some? || patch.plan.Some? || patch.maxUsers.Some? || patch.maxProjects.Some?))
  }

  predicate TenantMatches(t: Tenant, q: TenantQuery) {
    && (Truthy(q.status) ==> t.status == q.status.value)
    && (Truthy(q.plan) ==> t.plan == q.plan.value)
  }

  /** The row `UPDATE tenants SET ...` leaves. Anyone may rename; only a super_admin's
      status, plan and limits are applied; the subdomain never changes. */
  function ApplyTenantPatch(t: Tenant, patch: TenantPatch, super: bool): (u: Tenant)
    ensures u.subdomain == t.subdomain
    ensures u.name == (if patch.name.Some? then patch.name.value else t.name)
    ensures !super ==> u == t.(name := u.name)
    ensures super ==> u.status == (if patch.status.Some? then patch.status.value else t.status)
    ensures super ==> u.plan == (if patch.plan.Some? then patch.plan.value else t.plan)
    ensures super ==> u.maxUsers == (if patch.maxUsers.Some? then patch.maxUsers.value else t.maxUsers)
    ensures super ==> u.maxProjects == (if patch.maxProjects.Some? then patch.maxProjects.value else t.maxProjects)
    ensures !HasTenantFields(patch, super) ==> u == t
  {
    if super then
      t.(name := patch.name.GetOr(t.name), status := patch.status.GetOr(t.status), plan := patch.plan.GetOr(t.plan),
         maxUsers := patch.maxUsers.GetOr(t.maxUsers), maxProjects := patch.maxProjects.GetOr(t.maxProjects))
    else
      t.(name := patch.name.GetOr(t.name))
  }

  /** getTenantDetails (tenantController.js:5-51). */
  method GetTenantDetails(db: Db, p: Principal, tenantId: Id) returns (r: Result<TenantDetails>)
    requires db.Valid()
    ensures r == Fail(Forbidden) <==> !CanSeeTenant(p, tenantId)
    ensures r == Fail(NotFound) <==> CanSeeTenant(p, tenantId) && tenantId !in db.tenants
    ensures r.Ok? || r == Fail(Forbidden) || r == Fail(NotFound)
    ensures r.Ok? ==>
      && tenantId in db.tenants
      && r.value.tenant == db.tenants[tenantId]
      && r.value.totalUsers == |UsersOf(db.users, tenantId)|
      && r.value.totalProjects == |ProjectsOf(db.projects, tenantId)|
      && r.value.totalTasks == |TasksOf(db.tasks, tenantId)|
      && r.value.totalTasks == |set k | k in db.tasks && db.tasks[k].projectId in ProjectsOf(db.projects, tenantId)|
  {
    if p.role != SuperAdmin && p.tenantId != Some(tenantId) {
      return Fail(Forbidden);
    }
    if tenantId !in db.tenants {
      return Fail(NotFound);
    }
    TenantTasksAreProjectTasks(db.projects, db.tasks, tenantId);
    r := Ok(TenantDetails(db.tenants[tenantId], |UsersOf(db.users, tenantId)|,
                          |ProjectsOf(db.projects, tenantId)|, |TasksOf(db.tasks, tenantId)|));
  }

  /** The SET list of updateTenant (tenantController.js:72-95). */
  method TenantSetList(t: Tenant, patch: TenantPatch, super: bool) returns (updated: Tenant, fields: nat)
    ensures updated == ApplyTenantPatch(t, patch, super)
    ensures fields == 0 <==> !HasTenantFields(patch, super)
  {
    updated, fields := t, 0;
    if patch.name.Some? {
      updated, fields := updated.(name := patch.name.value), fields + 1;
    }
    if patch.status.Some? && super {
      updated, fields := updated.(status := patch.status.value), fields + 1;
    }
    if patch.plan.Some? && super {
      updated, fields := updated.(plan := patch.plan.value), fields + 1;
    }
    if patch.maxUsers.Some? && super {
      updated, fields := updated.(maxUsers := patch.maxUsers.value), fields + 1;
    }
    if patch.maxProjects.Some? && super {
      updated, fields := updated.(maxProjects := patch.maxProjects.value), fields + 1;
    }
  }

  /** updateTenant (tenantController.js:54-130). */
  method UpdateTenant(db: Db, p: Principal, tenantId: Id, patch: TenantPatch) returns (r: Result<Tenant>)
    requires db.Valid()
    modifies db
    ensures db.Valid()
    ensures r.Fail? ==> unchanged(db)
    ensures db.users == old(db.users) && db.projects == old(db.projects) && db.tasks == old(db.tasks)
    ensures r == Fail(Forbidden) <==> p.role != SuperAdmin && (p.tenantId != Some(tenantId) || TouchesRestricted(patch))
    ensures r == Fail(BadRequest) <==>
      && CanSeeTenant(p, tenantId)
      && (p.role == SuperAdmin || !TouchesRestricted(patch))
      && !HasTenantFields(patch, p.role == SuperAdmin)
    ensures r == Fail(NotFound) <==>
      && CanSeeTenant(p, tenantId)
      && (p.role == SuperAdmin || !TouchesRestricted(patch))
      && HasTenantFields(patch, p.role == SuperAdmin)
      && tenantId !in old(db.tenants)
    ensures r.Ok? || r == Fail(Forbidden) || r == Fail(BadRequest) || r == Fail(NotFound)
    ensures r.Ok? ==>
      && CanSeeTenant(p, tenantId)
      && tenantId in old(db.tenants)
      && r.value == ApplyTenantPatch(old(db.tenants)[tenantId], patch, p.role == SuperAdmin)
      && db.tenants == old(db.tenants)[tenantId := r.value]
      && db.audit == old(db.audit) + [AuditEntry(Some(tenantId), p.userId, "UPDATE_TENANT", "tenant", tenantId)]
  {
    var super := p.role == SuperAdmin;
    if !super && p.tenantId != Some(tenantId) {
      return Fail(Forbidden);
    }
    if !super && TouchesRestricted(patch) {
      return Fail(Forbidden);
    }
    if tenantId !in db.tenants {
      // the UPDATE matches no row; an empty SET list is refused before it runs
      if !HasTenantFields(patch, super) {
        return Fail(BadRequest);
      }
      return Fail(NotFound);
    }
    var updated, fields := TenantSetList(db.tenants[tenantId], patch, super);
    if fields == 0 {
      return Fail(BadRequest);
    }
    db.tenants := db.tenants[tenantId := updated];
    db.audit := db.audit + [AuditEntry(Some(tenantId), p.userId, "UPDATE_TENANT", "tenant", tenantId)];
    r := Ok(updated);
  }

  /** listTenants (tenantController.js:133-200). */
  method ListTenants(db: Db, p: Principal, q: TenantQuery, page: int, limit: int)
    returns (r: Result<Listing<Id, TenantSummary>>)
    requires page >= 1 && limit >= 1
    ensures r == Fail(Forbidden) <==> p.role != SuperAdmin
    ensures r.Ok? || r == Fail(Forbidden)
    ensures r.Ok? ==>
      && (forall k :: k in r.value.rows <==> k in db.tenants && TenantMatches(db.tenants[k], q))
      && (forall k :: k in r.value.rows ==>
            r.value.rows[k] == TenantSummary(db.tenants[k], |UsersOf(db.users, k)|, |ProjectsOf(db.projects, k)|))
      && r.value.total == |r.value.rows|
      && r.value.offset == (page - 1) * limit
      && r.value.totalPages * limit >= r.value.total
      && (r.value.totalPages > 0 ==> (r.value.totalPages - 1) * limit < r.value.total)
  {
    if p.role != SuperAdmin {
      return Fail(Forbidden);
    }
    var rows := map k | k in db.tenants && TenantMatches(db.tenants[k], q)
                  :: TenantSummary(db.tenants[k], |UsersOf(db.users, k)|, |ProjectsOf(db.projects, k)|);
    var total := |rows|;
    r := Ok(Listing(rows, total, Offset(page, limit), TotalPages(total, limit)));
  }
}

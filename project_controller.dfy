/**
 * backend/src/controllers/projectController.js: create, list, update and delete the
 * projects of the caller's tenant. Creation is bounded by the tenant's max_projects;
 * update and delete need the caller to be in the project's tenant and to be its
 * creator or a tenant_admin. Deleting a project deletes its tasks (ON DELETE CASCADE).
 */
module ProjectController {
  import opened Wrappers
  import opened Domain
  import opened Text
  import opened Database
  import opened Paging

  /** The validated body of `POST /projects`. */
  datatype NewProject = NewProject(name: string, description: Option<string>, status: Option<string>)

  /** The body of `PUT /projects/:projectId`; `None` is a field left undefined. */
  datatype ProjectPatch = ProjectPatch(name: Option<string>, description: Option<string>, status: Option<string>)

  /** The query string of `GET /projects`. */
  datatype ProjectQuery = ProjectQuery(status: Option<string>, search: Option<string>)

  /** One entry of the project list, with its task counts. */
  datatype ProjectSummary = ProjectSummary(project: Project, taskCount: nat, completedTaskCount: nat)

  predicate ProjectMatches(pr: Project, q: ProjectQuery) {
    && (Truthy(q.status) ==> pr.status == q.status.value)
    && (Truthy(q.search) ==> ILike(pr.name, q.search.value))
  }

  /** Within the project's tenant: its creator or a tenant_admin. */
  predicate CanManage(p: Principal, pr: Project) {
    pr.createdBy == p.userId || p.role == TenantAdmin
  }

  predicate HasProjectFields(patch: ProjectPatch) {
    patch.name.Some? || patch.description.Some? || patch.status.Some?
  }

  /** The row `UPDATE projects SET ...` leaves: supplied fields take the supplied value,
      the others keep theirs; tenant and creator never change. */
  function ApplyProjectPatch(pr: Project, patch: ProjectPatch): (u: Project)
    ensures u.tenantId == pr.tenantId && u.createdBy == pr.createdBy
    ensures u.name == (if patch.name.Some? then patch.name.value else pr.name)
    ensures u.description == (if patch.description.Some? then patch.description else pr.description)
    ensures u.status == (if patch.status.Some? then patch.status.value else pr.status)
    ensures !HasProjectFields(patch) ==> u == pr
  {
    pr.(name := patch.name.GetOr(pr.name),
        description := if patch.description.Some? then patch.description else pr.description,
        status := patch.status.GetOr(pr.status))
  }

  /** The counts listProjects attaches to a project; never more completed tasks than tasks. */
  function Summarize(tasks: map<Id, Task>, pid: Id, pr: Project): (s: ProjectSummary)
    ensures s.project == pr
    ensures s.taskCount == |TasksOfProject(tasks, pid)|
    ensures s.completedTaskCount == |CompletedTasksOfProject(tasks, pid)|
    ensures s.completedTaskCount <= s.taskCount
  {
    CompletedAtMostAll(tasks, pid);
    ProjectSummary(pr, |TasksOfProject(tasks, pid)|, |CompletedTasksOfProject(tasks, pid)|)
  }

  /** createProject (projectController.js:6-53). */
  method CreateProject(db: Db, p: Principal, req: NewProject, newId: Id) returns (r: Result<Id>)
    requires db.Valid()
    requires |req.name| >= 3
    requires req.status.None? || req.status.value in ProjectStatuses
    modifies db
    ensures db.Valid()
    ensures r.Fail? ==> unchanged(db)
    ensures db.tenants == old(db.tenants) && db.users == old(db.users) && db.tasks == old(db.tasks)
    ensures r == Fail(NotFound) <==> p.tenantId.None? || p.tenantId.value !in old(db.tenants)
    ensures r == Fail(LimitReached) <==>
      && p.tenantId.Some? && p.tenantId.value in old(db.tenants)
      && |ProjectsOf(old(db.projects), p.tenantId.value)| >= old(db.tenants)[p.tenantId.value].maxProjects
    ensures r == Fail(Internal) <==>
      && p.tenantId.Some? && p.tenantId.value in old(db.tenants)
      && |ProjectsOf(old(db.projects), p.tenantId.value)| < old(db.tenants)[p.tenantId.value].maxProjects
      && newId in old(db.projects)
    ensures r.Ok? || r == Fail(NotFound) || r == Fail(LimitReached) || r == Fail(Internal)
    ensures r.Ok? ==>
      && r.value == newId
      && p.tenantId.Some? && p.tenantId.value in old(db.tenants)
      && newId !in old(db.projects)
      && db.projects == old(db.projects)[newId := Project(p.tenantId.value, req.name, OrNull(req.description),
                                                           req.status.GetOr(ActiveStatus), p.userId)]
      && |ProjectsOf(db.projects, p.tenantId.value)| == |ProjectsOf(old(db.projects), p.tenantId.value)| + 1
      && |ProjectsOf(db.projects, p.tenantId.value)| <= db.tenants[p.tenantId.value].maxProjects
      && db.audit == old(db.audit) + [AuditEntry(p.tenantId, p.userId, "CREATE_PROJECT", "project", newId)]
  {
    // `SELECT * FROM tenants WHERE id = $1` with a NULL id finds nothing
    if p.tenantId.None? || p.tenantId.value !in db.tenants {
      return Fail(NotFound);
    }
    var tenantId := p.tenantId.value;
    var tenant := db.tenants[tenantId];
    if |ProjectsOf(db.projects, tenantId)| >= tenant.maxProjects {
      return Fail(LimitReached);
    }
    if newId in db.projects {
      // the INSERT violates the primary key
      return Fail(Internal);
    }
    var project := Project(tenantId, req.name, OrNull(req.description), req.status.GetOr(ActiveStatus), p.userId);
    ProjectsOfInsert(db.projects, newId, project, tenantId);
    db.projects := db.projects[newId := project];
    db.audit := db.audit + [AuditEntry(p.tenantId, p.userId, "CREATE_PROJECT", "project", newId)];
    r := Ok(newId);
  }

  /** listProjects (projectController.js:56-124). */
  method ListProjects(db: Db, p: Principal, q: ProjectQuery, page: int, limit: int)
    returns (r: Listing<Id, ProjectSummary>)
    requires page >= 1 && limit >= 1
    ensures forall k :: k in r.rows <==> k in db.projects && p.tenantId == Some(db.projects[k].tenantId) && ProjectMatches(db.projects[k], q)
    ensures forall k :: k in r.rows ==>
      && r.rows[k].project == db.projects[k]
      && r.rows[k].taskCount == |TasksOfProject(db.tasks, k)|
      && r.rows[k].completedTaskCount == |CompletedTasksOfProject(db.tasks, k)|
      && r.rows[k].completedTaskCount <= r.rows[k].taskCount
    ensures r.total == |r.rows|
    ensures r.offset == (page - 1) * limit
    ensures r.totalPages * limit >= r.total && (r.totalPages > 0 ==> (r.totalPages - 1) * limit < r.total)
  {
    var rows := map k | k in db.projects && p.tenantId == Some(db.projects[k].tenantId) && ProjectMatches(db.projects[k], q)
                  :: Summarize(db.tasks, k, db.projects[k]);
    var total := |rows|;
    r := Listing(rows, total, Offset(page, limit), TotalPages(total, limit));
  }

  /** The SET list of updateProject (projectController.js:155-172). */
  method ProjectSetList(pr: Project, patch: ProjectPatch) returns (updated: Project, fields: nat)
    ensures updated == ApplyProjectPatch(pr, patch)
    ensures fields == 0 <==> !HasProjectFields(patch)
  {
    updated, fields := pr, 0;
    if patch.name.Some? {
      updated, fields := updated.(name := patch.name.value), fields + 1;
    }
    if patch.description.Some? {
      updated, fields := updated.(description := patch.description), fields + 1;
    }
    if patch.status.Some? {
      updated, fields := updated.(status := patch.status.value), fields + 1;
    }
  }

  /** updateProject (projectController.js:127-205). */
  method UpdateProject(db: Db, p: Principal, projectId: Id, patch: ProjectPatch) returns (r: Result<Project>)
    requires db.Valid()
    modifies db
    ensures db.Valid()
    ensures r.Fail? ==> unchanged(db)
    ensures db.tenants == old(db.tenants) && db.users == old(db.users) && db.tasks == old(db.tasks)
    ensures r == Fail(NotFound) <==> projectId !in old(db.projects)
    ensures r == Fail(Forbidden) <==>
      && projectId in old(db.projects)
      && (p.tenantId != Some(old(db.projects)[projectId].tenantId) || !CanManage(p, old(db.projects)[projectId]))
    ensures r == Fail(BadRequest) <==>
      && projectId in old(db.projects)
      && p.tenantId == Some(old(db.projects)[projectId].tenantId) && CanManage(p, old(db.projects)[projectId])
      && !HasProjectFields(patch)
    ensures r.Ok? || r == Fail(NotFound) || r == Fail(Forbidden) || r == Fail(BadRequest)
    ensures r.Ok? ==>
      && projectId in old(db.projects)
      && p.tenantId == Some(old(db.projects)[projectId].tenantId)
      && CanManage(p, old(db.projects)[projectId])
      && r.value == ApplyProjectPatch(old(db.projects)[projectId], patch)
      && db.projects == old(db.projects)[projectId := r.value]
      && db.audit == old(db.audit) + [AuditEntry(p.tenantId, p.userId, "UPDATE_PROJECT", "project", projectId)]
  {
    if projectId !in db.projects {
      return Fail(NotFound);
    }
    var project := db.projects[projectId];
    if Some(project.tenantId) != p.tenantId {
      return Fail(Forbidden);
    }
    var isCreator := project.createdBy == p.userId;
    var isAdmin := p.role == TenantAdmin;
    if !isCreator && !isAdmin {
      return Fail(Forbidden);
    }
    var updated, fields := ProjectSetList(project, patch);
    if fields == 0 {
      return Fail(BadRequest);
    }
    db.projects := db.projects[projectId := updated];
    db.audit := db.audit + [AuditEntry(p.tenantId, p.userId, "UPDATE_PROJECT", "project", projectId)];
    r := Ok(updated);
  }

  /** deleteProject (projectController.js:208-249). */
  method DeleteProject(db: Db, p: Principal, projectId: Id) returns (r: Result<Id>)
    requires db.Valid()
    modifies db
    ensures db.Valid()
    ensures r.Fail? ==> unchanged(db)
    ensures db.tenants == old(db.tenants) && db.users == old(db.users)
    ensures r == Fail(NotFound) <==> projectId !in old(db.projects)
    ensures r == Fail(Forbidden) <==>
      && projectId in old(db.projects)
      && (p.tenantId != Some(old(db.projects)[projectId].tenantId) || !CanManage(p, old(db.projects)[projectId]))
    ensures r.Ok? || r == Fail(NotFound) || r == Fail(Forbidden)
    ensures r.Ok? ==>
      && r.value == projectId
      && projectId in old(db.projects)
      && p.tenantId == Some(old(db.projects)[projectId].tenantId)
      && CanManage(p, old(db.projects)[projectId])
      && db.projects == old(db.projects) - {projectId}
      && db.tasks == DropProjectTasks(old(db.tasks), projectId)
      && db.audit == old(db.audit) + [AuditEntry(p.tenantId, p.userId, "DELETE_PROJECT", "project", projectId)]
  {
    if projectId !in db.projects {
      return Fail(NotFound);
    }
    var project := db.projects[projectId];
    if Some(project.tenantId) != p.tenantId {
      return Fail(Forbidden);
    }
    var isCreator := project.createdBy == p.userId;
    var isAdmin := p.role == TenantAdmin;
    if !isCreator && !isAdmin {
      return Fail(Forbidden);
    }
    db.projects := db.projects - {projectId};
    db.tasks := DropProjectTasks(db.tasks, projectId);
    db.audit := db.audit + [AuditEntry(p.tenantId, p.userId, "DELETE_PROJECT", "project", projectId)];
    r := Ok(projectId);
  }
}

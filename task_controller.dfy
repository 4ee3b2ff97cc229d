/**
 * backend/src/controllers/taskController.js: create, list and update tasks of a project.
 * Every operation first looks the project or task up (404 when missing) and then
 * compares its tenant with the caller's (403 otherwise). There is no super_admin
 * bypass: a super_admin has no tenant, so the comparison refuses them.
 */
module TaskController {
  import opened Wrappers
  import opened Domain
  import opened Text
  import opened Database
  import opened Paging

  /** The validated body of `POST /projects/:projectId/tasks`. */
  datatype NewTask = NewTask(
    title: string,
    description: Option<string>,
    assignedTo: Option<Id>,
    priority: Option<string>,
    dueDate: Option<string>)

  /** The body of `PUT /tasks/:taskId`; `None` is a field left undefined. */
  datatype TaskPatch = TaskPatch(
    title: Option<string>,
    description: Option<string>,
    status: Option<string>,
    priority: Option<string>,
    assignedTo: Option<string>,
    dueDate: Option<string>)

  /** The query string of `GET /projects/:projectId/tasks`. */
  datatype TaskQuery = TaskQuery(
    status: Option<string>,
    assignedTo: Option<string>,
    priority: Option<string>,
    search: Option<string>)

  /** The `AND ...` filters that a truthy query parameter adds. */
  predicate TaskMatches(t: Task, q: TaskQuery) {
    && (Truthy(q.status) ==> t.status == q.status.value)
    && (Truthy(q.assignedTo) ==> t.assignedTo == q.assignedTo)
    && (Truthy(q.priority) ==> t.priority == q.priority.value)
    && (Truthy(q.search) ==> ILike(t.title, q.search.value))
  }

  predicate HasTaskFields(patch: TaskPatch) {
    || patch.title.Some? || patch.description.Some? || patch.status.Some?
    || patch.priority.Some? || patch.assignedTo.Some? || patch.dueDate.Some?
  }

  /** The row `UPDATE tasks SET ...` leaves: every supplied field takes the supplied
      value (a falsy assignee or due date becomes NULL), every other field keeps its
      value, and the task never moves to another project or tenant. */
  function ApplyTaskPatch(t: Task, patch: TaskPatch): (u: Task)
    ensures u.projectId == t.projectId && u.tenantId == t.tenantId
    ensures u.title == (if patch.title.Some? then patch.title.value else t.title)
    ensures u.description == (if patch.description.Some? then patch.description else t.description)
    ensures u.status == (if patch.status.Some? then patch.status.value else t.status)
    ensures u.priority == (if patch.priority.Some? then patch.priority.value else t.priority)
    ensures patch.assignedTo.None? ==> u.assignedTo == t.assignedTo
    ensures patch.assignedTo.Some? && !Truthy(patch.assignedTo) ==> u.assignedTo == None
    ensures Truthy(patch.assignedTo) ==> u.assignedTo == patch.assignedTo
    ensures u.dueDate == (if patch.dueDate.Some? then OrNull(patch.dueDate) else t.dueDate)
    ensures !HasTaskFields(patch) ==> u == t
  {
    Task(
      t.projectId,
      t.tenantId,
      patch.title.GetOr(t.title),
      if patch.description.Some? then patch.description else t.description,
      patch.status.GetOr(t.status),
      patch.priority.GetOr(t.priority),
      if patch.assignedTo.Some? then OrNull(patch.assignedTo) else t.assignedTo,
      if patch.dueDate.Some? then OrNull(patch.dueDate) else t.dueDate)
  }

  /** createTask (taskController.js:6-62). */
  method CreateTask(db: Db, p: Principal, projectId: Id, req: NewTask, newId: Id) returns (r: Result<Id>)
    requires db.Valid()
    requires |req.title| >= 3
    requires req.priority.None? || req.priority.value in Priorities
    modifies db
    ensures db.Valid()
    ensures r.Fail? ==> unchanged(db)
    ensures db.tenants == old(db.tenants) && db.users == old(db.users) && db.projects == old(db.projects)
    ensures r == Fail(NotFound) <==> projectId !in old(db.projects)
    ensures r == Fail(Forbidden) <==>
      projectId in old(db.projects) && p.tenantId != Some(old(db.projects)[projectId].tenantId)
    ensures r == Fail(BadRequest) <==>
      && projectId in old(db.projects) && p.tenantId == Some(old(db.projects)[projectId].tenantId)
      && Truthy(req.assignedTo) && !UserInTenant(old(db.users), req.assignedTo.value, p.tenantId)
    ensures r == Fail(Internal) <==>
      && projectId in old(db.projects) && p.tenantId == Some(old(db.projects)[projectId].tenantId)
      && (Truthy(req.assignedTo) ==> UserInTenant(old(db.users), req.assignedTo.value, p.tenantId))
      && newId in old(db.tasks)
    ensures r.Ok? || r == Fail(NotFound) || r == Fail(Forbidden) || r == Fail(BadRequest) || r == Fail(Internal)
    ensures r.Ok? ==>
      && r.value == newId
      && projectId in old(db.projects)
      && p.tenantId == Some(old(db.projects)[projectId].tenantId)
      && newId !in old(db.tasks)
      && db.tasks == old(db.tasks)[newId := Task(projectId, p.tenantId.value, req.title, OrNull(req.description),
                                                 TodoStatus, req.priority.GetOr(DefaultPriority),
                                                 OrNull(req.assignedTo), OrNull(req.dueDate))]
      && db.audit == old(db.audit) + [AuditEntry(p.tenantId, p.userId, "CREATE_TASK", "task", newId)]
  {
    if projectId !in db.projects {
      return Fail(NotFound);
    }
    var project := db.projects[projectId];
    if Some(project.tenantId) != p.tenantId {
      return Fail(Forbidden);
    }
    if Truthy(req.assignedTo) && !UserInTenant(db.users, req.assignedTo.value, p.tenantId) {
      return Fail(BadRequest);
    }
    if newId in db.tasks {
      // the INSERT violates the primary key
      return Fail(Internal);
    }
    var task := Task(projectId, p.tenantId.value, req.title, OrNull(req.description),
                     TodoStatus, req.priority.GetOr(DefaultPriority), OrNull(req.assignedTo), OrNull(req.dueDate));
    db.tasks := db.tasks[newId := task];
    db.audit := db.audit + [AuditEntry(p.tenantId, p.userId, "CREATE_TASK", "task", newId)];
    r := Ok(newId);
  }

  /** listTasks (taskController.js:65-151). */
  method ListTasks(db: Db, p: Principal, projectId: Id, q: TaskQuery, page: int, limit: int)
    returns (r: Result<Listing<Id, Task>>)
    requires db.Valid()
    requires page >= 1 && limit >= 1
    ensures r == Fail(NotFound) <==> projectId !in db.projects
    ensures r == Fail(Forbidden) <==> projectId in db.projects && p.tenantId != Some(db.projects[projectId].tenantId)
    ensures r.Ok? || r == Fail(NotFound) || r == Fail(Forbidden)
    ensures r.Ok? ==>
      && (forall k :: k in r.value.rows <==> k in db.tasks && db.tasks[k].projectId == projectId && TaskMatches(db.tasks[k], q))
      && (forall k :: k in r.value.rows ==> r.value.rows[k] == db.tasks[k] && p.tenantId == Some(r.value.rows[k].tenantId))
      && r.value.total == |r.value.rows|
      && r.value.offset == (page - 1) * limit
      && r.value.totalPages * limit >= r.value.total
      && (r.value.totalPages > 0 ==> (r.value.totalPages - 1) * limit < r.value.total)
  {
    if projectId !in db.projects {
      return Fail(NotFound);
    }
    var project := db.projects[projectId];
    if Some(project.tenantId) != p.tenantId {
      return Fail(Forbidden);
    }
    var rows := map k | k in db.tasks && db.tasks[k].projectId == projectId && TaskMatches(db.tasks[k], q) :: db.tasks[k];
    var total := |rows|;
    r := Ok(Listing(rows, total, Offset(page, limit), TotalPages(total, limit)));
  }

  /** updateTaskStatus (taskController.js:154-192). */
  method UpdateTaskStatus(db: Db, p: Principal, taskId: Id, status: string) returns (r: Result<Id>)
    requires db.Valid()
    modifies db
    ensures db.Valid()
    ensures r.Fail? ==> unchanged(db)
    ensures db.tenants == old(db.tenants) && db.users == old(db.users) && db.projects == old(db.projects)
    ensures r == Fail(NotFound) <==> taskId !in old(db.tasks)
    ensures r == Fail(Forbidden) <==> taskId in old(db.tasks) && p.tenantId != Some(old(db.tasks)[taskId].tenantId)
    ensures r.Ok? || r == Fail(NotFound) || r == Fail(Forbidden)
    ensures r.Ok? ==>
      && r.value == taskId
      && taskId in old(db.tasks)
      && p.tenantId == Some(old(db.tasks)[taskId].tenantId)
      && db.tasks == old(db.tasks)[taskId := old(db.tasks)[taskId].(status := status)]
      && db.audit == old(db.audit) + [AuditEntry(p.tenantId, p.userId, "UPDATE_TASK_STATUS", "task", taskId)]
  {
    if taskId !in db.tasks {
      return Fail(NotFound);
    }
    var task := db.tasks[taskId];
    if Some(task.tenantId) != p.tenantId {
      return Fail(Forbidden);
    }
    db.tasks := db.tasks[taskId := task.(status := status)];
    db.audit := db.audit + [AuditEntry(p.tenantId, p.userId, "UPDATE_TASK_STATUS", "task", taskId)];
    r := Ok(taskId);
  }

  /** The SET list of updateTask, one supplied field at a time (taskController.js:223-255). */
  method TaskSetList(task: Task, patch: TaskPatch) returns (updated: Task, fields: nat)
    ensures updated == ApplyTaskPatch(task, patch)
    ensures fields == 0 <==> !HasTaskFields(patch)
  {
    updated, fields := task, 0;
    if patch.title.Some? {
      updated, fields := updated.(title := patch.title.value), fields + 1;
    }
    if patch.description.Some? {
      updated, fields := updated.(description := patch.description), fields + 1;
    }
    if patch.status.Some? {
      updated, fields := updated.(status := patch.status.value), fields + 1;
    }
    if patch.priority.Some? {
      updated, fields := updated.(priority := patch.priority.value), fields + 1;
    }
    if patch.assignedTo.Some? {
      updated, fields := updated.(assignedTo := OrNull(patch.assignedTo)), fields + 1;
    }
    if patch.dueDate.Some? {
      updated, fields := updated.(dueDate := OrNull(patch.dueDate)), fields + 1;
    }
  }

  /** updateTask (taskController.js:195-303). */
  method UpdateTask(db: Db, p: Principal, taskId: Id, patch: TaskPatch) returns (r: Result<Task>)
    requires db.Valid()
    modifies db
    ensures db.Valid()
    ensures r.Fail? ==> unchanged(db)
    ensures db.tenants == old(db.tenants) && db.users == old(db.users) && db.projects == old(db.projects)
    ensures r == Fail(NotFound) <==> taskId !in old(db.tasks)
    ensures r == Fail(Forbidden) <==> taskId in old(db.tasks) && p.tenantId != Some(old(db.tasks)[taskId].tenantId)
    ensures r == Fail(BadRequest) <==>
      && taskId in old(db.tasks) && p.tenantId == Some(old(db.tasks)[taskId].tenantId)
      && ((Truthy(patch.assignedTo) && !UserInTenant(old(db.users), patch.assignedTo.value, p.tenantId))
          || !HasTaskFields(patch))
    ensures r.Ok? || r == Fail(NotFound) || r == Fail(Forbidden) || r == Fail(BadRequest)
    ensures r.Ok? ==>
      && taskId in old(db.tasks)
      && p.tenantId == Some(old(db.tasks)[taskId].tenantId)
      && r.value == ApplyTaskPatch(old(db.tasks)[taskId], patch)
      && db.tasks == old(db.tasks)[taskId := r.value]
      && db.audit == old(db.audit) + [AuditEntry(p.tenantId, p.userId, "UPDATE_TASK", "task", taskId)]
  {
    if taskId !in db.tasks {
      return Fail(NotFound);
    }
    var task := db.tasks[taskId];
    if Some(task.tenantId) != p.tenantId {
      return Fail(Forbidden);
    }
    if Truthy(patch.assignedTo) && !UserInTenant(db.users, patch.assignedTo.value, p.tenantId) {
      return Fail(BadRequest);
    }
    var updated, fields := TaskSetList(task, patch);
    if fields == 0 {
      return Fail(BadRequest);
    }
    db.tasks := db.tasks[taskId := updated];
    db.audit := db.audit + [AuditEntry(p.tenantId, p.userId, "UPDATE_TASK", "task", taskId)];
    r := Ok(updated);
  }
}

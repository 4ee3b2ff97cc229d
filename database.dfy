/**
 * The PostgreSQL database as one in-memory store: the tenants, users, projects and
 * tasks tables keyed by id, and the append-only audit log. `Valid()` collects the
 * integrity the schema and the controllers keep: every task points at a project of
 * its own tenant, an assignee belongs to the task's tenant, projects and users belong
 * to existing tenants, subdomains are unique, emails are unique within a tenant, and
 * both are stored lower-case.
 */
module Database {
  import opened Wrappers
  import opened Domain
  import opened Text

  predicate TasksInProjects(projects: map<Id, Project>, tasks: map<Id, Task>) {
    forall k :: k in tasks ==>
      tasks[k].projectId in projects && projects[tasks[k].projectId].tenantId == tasks[k].tenantId
  }

  predicate AssigneesInTenant(users: map<Id, User>, tasks: map<Id, Task>) {
    forall k :: k in tasks && tasks[k].assignedTo.Some? ==>
      tasks[k].assignedTo.value in users && users[tasks[k].assignedTo.value].tenantId == Some(tasks[k].tenantId)
  }

  predicate ProjectsInTenants(tenants: map<Id, Tenant>, projects: map<Id, Project>) {
    forall k :: k in projects ==> projects[k].tenantId in tenants
  }

  predicate UsersInTenants(tenants: map<Id, Tenant>, users: map<Id, User>) {
    forall k :: k in users && users[k].tenantId.Some? ==> users[k].tenantId.value in tenants
  }

  predicate SubdomainsUnique(tenants: map<Id, Tenant>) {
    forall a, b :: a in tenants && b in tenants && tenants[a].subdomain == tenants[b].subdomain ==> a == b
  }

  predicate EmailsUnique(users: map<Id, User>) {
    forall a, b :: a in users && b in users && users[a].tenantId == users[b].tenantId && users[a].email == users[b].email ==> a == b
  }

  predicate StoredLowerCase(tenants: map<Id, Tenant>, users: map<Id, User>) {
    && (forall k :: k in tenants ==> IsLower(tenants[k].subdomain))
    && (forall k :: k in users ==> IsLower(users[k].email))
  }

  predicate Consistent(tenants: map<Id, Tenant>, users: map<Id, User>, projects: map<Id, Project>, tasks: map<Id, Task>) {
    && TasksInProjects(projects, tasks)
    && AssigneesInTenant(users, tasks)
    && ProjectsInTenants(tenants, projects)
    && UsersInTenants(tenants, users)
    && SubdomainsUnique(tenants)
    && EmailsUnique(users)
    && StoredLowerCase(tenants, users)
  }

  class Db {
    var tenants: map<Id, Tenant>
    var users: map<Id, User>
    var projects: map<Id, Project>
    var tasks: map<Id, Task>
    var audit: seq<AuditEntry>

    ghost predicate Valid()
      reads this
    {
      Consistent(tenants, users, projects, tasks)
    }

    constructor ()
      ensures Valid()
      ensures tenants == map[] && users == map[] && projects == map[] && tasks == map[]
      ensures audit == []
    {
      tenants, users, projects, tasks := map[], map[], map[], map[];
      audit := [];
    }
  }

  /** `SELECT * FROM users WHERE id = $1 AND tenant_id = $2` finds a row. */
  predicate UserInTenant(users: map<Id, User>, uid: Id, t: Option<Id>) {
    uid in users && t.Some? && users[uid].tenantId == t
  }

  // The COUNT(*) queries of the controllers, as sets of row ids.

  /** `SELECT ... FROM users WHERE tenant_id = $1` */
  function UsersOf(users: map<Id, User>, t: Id): set<Id> {
    set k | k in users && users[k].tenantId == Some(t)
  }

  /** `SELECT ... FROM projects WHERE tenant_id = $1` */
  function ProjectsOf(projects: map<Id, Project>, t: Id): set<Id> {
    set k | k in projects && projects[k].tenantId == t
  }

  /** `SELECT ... FROM tasks WHERE tenant_id = $1` */
  function TasksOf(tasks: map<Id, Task>, t: Id): set<Id> {
    set k | k in tasks && tasks[k].tenantId == t
  }

  /** `SELECT ... FROM tasks WHERE project_id = $1` */
  function TasksOfProject(tasks: map<Id, Task>, pid: Id): set<Id> {
    set k | k in tasks && tasks[k].projectId == pid
  }

  /** `SELECT ... FROM tasks WHERE project_id = $1 AND status = 'completed'` */
  function CompletedTasksOfProject(tasks: map<Id, Task>, pid: Id): set<Id> {
    set k | k in tasks && tasks[k].projectId == pid && tasks[k].status == CompletedStatus
  }

  /** Because a task's tenant is its project's tenant, the tasks of a tenant are
      exactly the tasks of that tenant's projects. */
  lemma TenantTasksAreProjectTasks(projects: map<Id, Project>, tasks: map<Id, Task>, t: Id)
    requires TasksInProjects(projects, tasks)
    ensures TasksOf(tasks, t) == set k | k in tasks && tasks[k].projectId in ProjectsOf(projects, t)
  {
  }

  /** A project never has more completed tasks than tasks. */
  lemma CompletedAtMostAll(tasks: map<Id, Task>, pid: Id)
    ensures |CompletedTasksOfProject(tasks, pid)| <= |TasksOfProject(tasks, pid)|
  {
    var done, all := CompletedTasksOfProject(tasks, pid), TasksOfProject(tasks, pid);
    assert all == done + (all - done);
    assert done !! (all - done);
  }

  /** Inserting a row with a fresh id adds one to its tenant's user count, and
      nothing to any other tenant's. */
  lemma UsersOfInsert(users: map<Id, User>, k: Id, u: User, t: Id)
    requires k !in users
    ensures |UsersOf(users[k := u], t)| == |UsersOf(users, t)| + (if u.tenantId == Some(t) then 1 else 0)
  {
    if u.tenantId == Some(t) {
      assert UsersOf(users[k := u], t) == UsersOf(users, t) + {k};
    } else {
      assert UsersOf(users[k := u], t) == UsersOf(users, t);
    }
  }

  /** Inserting a project with a fresh id adds one to its tenant's project count, and
      nothing to any other tenant's. */
  lemma ProjectsOfInsert(projects: map<Id, Project>, k: Id, p: Project, t: Id)
    requires k !in projects
    ensures |ProjectsOf(projects[k := p], t)| == |ProjectsOf(projects, t)| + (if p.tenantId == t then 1 else 0)
  {
    if p.tenantId == t {
      assert ProjectsOf(projects[k := p], t) == ProjectsOf(projects, t) + {k};
    } else {
      assert ProjectsOf(projects[k := p], t) == ProjectsOf(projects, t);
    }
  }

  /** `UPDATE tasks SET assigned_to = NULL WHERE assigned_to = $1`: no task is removed,
      every task of the user loses its assignee, and nothing else changes. */
  function Unassign(tasks: map<Id, Task>, uid: Id): (r: map<Id, Task>)
    ensures r.Keys == tasks.Keys
    ensures forall k :: k in r ==> r[k].assignedTo != Some(uid)
    ensures forall k :: k in r && tasks[k].assignedTo == Some(uid) ==> r[k] == tasks[k].(assignedTo := None)
    ensures forall k :: k in r && tasks[k].assignedTo != Some(uid) ==> r[k] == tasks[k]
  {
    map k | k in tasks :: if tasks[k].assignedTo == Some(uid) then tasks[k].(assignedTo := None) else tasks[k]
  }

  /** The `ON DELETE CASCADE` from projects to tasks: the tasks of `pid` go, all others stay as they are. */
  function DropProjectTasks(tasks: map<Id, Task>, pid: Id): (r: map<Id, Task>)
    ensures r.Keys == tasks.Keys - TasksOfProject(tasks, pid)
    ensures forall k :: k in r ==> r[k] == tasks[k]
  {
    map k | k in tasks && tasks[k].projectId != pid :: tasks[k]
  }
}

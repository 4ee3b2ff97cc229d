/**
 * The rows of the five tables, the authenticated principal, and the outcomes a
 * controller can answer with.
 */
module Domain {
  import opened Wrappers

  /** Row identifiers (uuids in the database). */
  type Id = string

  datatype Role = SuperAdmin | TenantAdmin | Member

  /** The name stored in `users.role` and compared by the `role` query filter. */
  function RoleName(r: Role): string {
    match r
    case SuperAdmin => "super_admin"
    case TenantAdmin => "tenant_admin"
    case Member => "user"
  }

  /** The claims of a verified token, which the middleware stores as `req.user`.
      A super_admin has no tenant. */
  datatype Principal = Principal(userId: Id, tenantId: Option<Id>, role: Role)

  datatype Tenant = Tenant(
    name: string,
    subdomain: string,
    status: string,
    plan: string,
    maxUsers: int,
    maxProjects: int)

  datatype User = User(
    tenantId: Option<Id>,
    email: string,
    passwordHash: string,
    fullName: string,
    role: Role,
    isActive: bool)

  datatype Project = Project(
    tenantId: Id,
    name: string,
    description: Option<string>,
    status: string,
    createdBy: Id)

  datatype Task = Task(
    projectId: Id,
    tenantId: Id,
    title: string,
    description: Option<string>,
    status: string,
    priority: string,
    assignedTo: Option<Id>,
    dueDate: Option<string>)

  /** One row of `audit_logs`. */
  datatype AuditEntry = AuditEntry(
    tenantId: Option<Id>,
    actorId: Id,
    action: string,
    entityType: string,
    entityId: Id)

  /** The HTTP error answers: 404, 403, 409, 403 (plan limit), 400, 401 and 500. */
  datatype Err = NotFound | Forbidden | Conflict | LimitReached | BadRequest | Unauthorized | Internal

  datatype Result<T> = Ok(value: T) | Fail(err: Err)

  /** What a middleware gate decides: call `next()`, or answer with an error. */
  datatype Verdict = Allow | Deny(err: Err)

  /** JavaScript truthiness of an optional string field: present and not empty. */
  predicate Truthy(v: Option<string>) {
    v.Some? && v.value != ""
  }

  /** `v || null`: a falsy value is stored as NULL. */
  function OrNull(v: Option<string>): (r: Option<string>)
    ensures r.Some? <==> Truthy(v)
    ensures r.Some? ==> r == v
  {
    if Truthy(v) then v else None
  }

  // Values fixed by the source: defaults and the sets the request schemas accept.
  const ActiveStatus := "active"
  const FreePlan := "free"
  const FreeMaxUsers := 5
  const FreeMaxProjects := 3
  const TodoStatus := "todo"
  const CompletedStatus := "completed"
  const DefaultPriority := "medium"
  const ProjectStatuses: set<string> := {"active", "archived", "completed"}
  const Priorities: set<string> := {"low", "medium", "high"}
}

# Multi-tenant project and task service: authorisation, quota and update core

This project models the backend of a multi-tenant SaaS application. Tenants sign up
with a subdomain and get a free plan that allows 5 users and 3 projects. Users belong
to one tenant, except for `super_admin` accounts, which have no tenant. Projects and
tasks belong to a tenant. Every write is recorded in an audit log.

The model covers the five Express controllers and the authentication middleware. The
PostgreSQL database becomes one store, the class `Database.Db`. It holds the tenants,
users, projects and tasks tables as maps keyed by id, and the audit log as a sequence.
`Db.Valid()` is the integrity the schema and the controllers keep together:

- every task points at a project of its own tenant;
- an assignee belongs to the task's tenant;
- projects and users point at existing tenants;
- subdomains are unique;
- e-mails are unique within a tenant;
- subdomains and e-mails are stored in lower case.

Each controller is one module. Each handler is one method. The method takes the
authenticated principal (`Domain.Principal`: user id, optional tenant id, role) and
the request, and returns `Ok` or an error:

- `NotFound` is 404;
- `Forbidden` is 403;
- `Conflict` is 409;
- `LimitReached` is the 403 sent when a plan limit is reached;
- `BadRequest` is 400;
- `Unauthorized` is 401;
- `Internal` is 500.

Every state-changing method:

- keeps `Valid()`;
- leaves the store unchanged when it fails;
- names each table it leaves alone;
- on success, gives the new state of the table it changes and the one audit entry it
  appends.

Each error has an if-and-only-if contract, stated in the order the handler makes its
checks. Login is the exception. Without a subdomain its user query can match several
super_admin accounts, and the query has no `ORDER BY`. So its contract says that the
outcome is the one the row of some matching account gives (`AccountOutcome`). It does
not fix which account.
The SET lists of the update handlers are built one field at a time, as in the
source. Each helper method that builds one (`TaskSetList` and the others) is proved
against a pure "apply patch" function. That function states which columns change.

The model keeps what the code does, including where it departs from a uniform policy:

- The project and task handlers have no super_admin bypass. They compare the row's
  tenant with the caller's tenant, and a super_admin has none.
- The tenant handlers and `listUsers` let a super_admin through.
- A missing row is reported as 404. A row of another tenant is reported as 403.
- `updateUser` applies whatever role a tenant_admin sends. So a tenant_admin can
  promote a user of their tenant to `super_admin`. `UserController.UpdateUser` models
  this as written.
- `registerTenant` rejects an admin e-mail that exists in any tenant. `addUser` rejects
  only one that exists in the same tenant.

Three collaborators are parameters:

- JWT verification: `verify`, a map from token to optional claims;
- bcrypt: `hash` and `passwordMatches`;
- uuid generation: a caller-supplied fresh id. An id that already names a row makes the
  INSERT fail with a primary-key violation. The result is then `Internal`. In
  `registerTenant`, this is the path on which the ROLLBACK undoes the tenant insert.

## Model

| member | source | states |
|---|---|---|
| Text.ToLower | backend/src/controllers/userController.js:35 | lower-casing keeps the length, turns each capital letter into its own lower-case letter (32 code points on), keeps every other character, and so leaves no capital and changes nothing already lower-case |
| Domain.OrNull | backend/src/controllers/taskController.js:37 | `x \|\| null`: the column is non-null exactly when the value is truthy, and is then that value |
| Paging.TotalPages | backend/src/controllers/taskController.js:133 | `Math.ceil(total / limit)`: the smallest page count whose pages cover the total |
| Paging.PageInRange | backend/src/controllers/taskController.js:112-133 | a page lies between 1 and totalPages exactly when its offset `(page - 1) * limit` falls inside the total |
| AuthMiddleware.Split | backend/src/middleware/auth.js:5 | `split(' ')` always yields at least one piece |
| AuthMiddleware.SplitJoin | backend/src/middleware/auth.js:5 | the pieces contain no space, and joining them with single spaces gives back the header |
| AuthMiddleware.ExtractToken | backend/src/middleware/auth.js:4-9 | a token found in the header is non-empty and contains no space |
| AuthMiddleware.ExtractTokenSpec | backend/src/middleware/auth.js:4-9 | a token is found exactly when the header is a word, one space, the token and then nothing or a space and anything |
| AuthMiddleware.Authenticate | backend/src/middleware/auth.js:3-18 | a missing token or a failed verification is 401; otherwise the principal is exactly the verified claims |
| AuthMiddleware.AuthorizeRole | backend/src/middleware/auth.js:20-32 | no principal is 401; a role outside the allowed list is 403; otherwise the request passes |
| AuthMiddleware.AuthorizeTenant | backend/src/middleware/auth.js:34-49 | a super_admin always passes; otherwise the requested tenant (path first, then body) must be absent or equal to the principal's tenant, else 403 |
| AuthMiddleware.TenantRouteGate | backend/src/routes/tenantRoutes.js:13-16 | on the `/:tenantId` routes the gate passes exactly a super_admin or a member of that tenant, the same test the tenant handlers repeat |
| Database.TenantTasksAreProjectTasks | backend/src/controllers/tenantController.js:27 | in a consistent store the tasks of a tenant are exactly the tasks of that tenant's projects |
| Database.CompletedAtMostAll | backend/src/controllers/projectController.js:88-89 | a project's completed tasks are never more than all its tasks |
| Database.UsersOfInsert | backend/src/controllers/userController.js:29-46 | inserting a new user id raises its tenant's user count by one and leaves other tenants' counts alone |
| Database.ProjectsOfInsert | backend/src/controllers/projectController.js:21-32 | inserting a new project id raises its tenant's project count by one and leaves other tenants' counts alone |
| Database.Unassign | backend/src/controllers/userController.js:251 | no task stays assigned to the user; tasks assigned to them lose only the assignee; every other task is untouched and no task is removed |
| Database.DropProjectTasks | backend/src/controllers/projectController.js:236 | the cascade removes exactly the project's tasks and keeps every other task as it was |
| TaskController.ApplyTaskPatch | backend/src/controllers/taskController.js:227-255 | each supplied field is set, a falsy assignee or due date becomes null, project and tenant never change, an empty patch changes nothing |
| TaskController.CreateTask | backend/src/controllers/taskController.js:6-62 | 404 iff no project; 403 iff the project is in another tenant; 400 iff a truthy assignee is not a user of the caller's tenant; on success one task of the project's tenant, status `todo`, priority defaulting to `medium`, and one CREATE_TASK entry |
| TaskController.ListTasks | backend/src/controllers/taskController.js:65-151 | 404/403 as for creation; the rows are exactly the tasks of that project matching the filters, all in the caller's tenant; offset and page count are those of the paging arithmetic |
| TaskController.UpdateTaskStatus | backend/src/controllers/taskController.js:154-192 | 404 iff no task; 403 iff another tenant's; otherwise only that task's status changes |
| TaskController.TaskSetList | backend/src/controllers/taskController.js:224-259 | the SET list yields the row `ApplyTaskPatch` describes and is empty exactly when no field is supplied |
| TaskController.UpdateTask | backend/src/controllers/taskController.js:195-303 | 404, 403, then 400 for an assignee outside the tenant, then 400 for no fields; on success only that task changes, to `ApplyTaskPatch` of it, and one UPDATE_TASK entry is appended |
| ProjectController.ApplyProjectPatch | backend/src/controllers/projectController.js:155-176 | only supplied name, description and status change; tenant and creator never change; an empty patch changes nothing |
| ProjectController.Summarize | backend/src/controllers/projectController.js:86-101 | a listed project carries its task count and completed-task count, and the second never exceeds the first |
| ProjectController.CreateProject | backend/src/controllers/projectController.js:6-53 | 404 iff the caller's tenant is missing; LimitReached iff the tenant already has max_projects projects; on success the count grows by one and stays within max_projects, the project is the caller's, status defaults to `active`, and one CREATE_PROJECT entry is appended |
| ProjectController.ListProjects | backend/src/controllers/projectController.js:56-124 | the rows are exactly the caller's tenant's projects matching the filters, each summarised; offset and page count follow the paging arithmetic |
| ProjectController.ProjectSetList | backend/src/controllers/projectController.js:155-176 | the SET list yields the row `ApplyProjectPatch` describes and is empty exactly when no field is supplied |
| ProjectController.UpdateProject | backend/src/controllers/projectController.js:127-205 | 404 iff missing; 403 iff another tenant's or the caller is neither creator nor tenant_admin; 400 iff no field; on success only that project changes and one UPDATE_PROJECT entry is appended |
| ProjectController.DeleteProject | backend/src/controllers/projectController.js:208-249 | same 404/403 rules; on success exactly that project and its tasks are gone and everything else is unchanged |
| UserController.ApplyUserPatch | backend/src/controllers/userController.js:172-185 | the full name follows the patch; role and active flag change only for the tenant's admin; tenant, e-mail and hash never change |
| UserController.AddUser | backend/src/controllers/userController.js:7-68 | 403 unless the caller is tenant_admin of that very tenant; 404 iff the tenant is missing; LimitReached iff the tenant is at max_users; 409 iff the lower-cased e-mail is taken in that tenant; on success the count stays within max_users, and the user is active, lower-cased, in that tenant, with role defaulting to `user`, plus one CREATE_USER entry |
| UserController.ListUsers | backend/src/controllers/userController.js:71-136 | 403 iff a non-super_admin asks for another tenant; the rows are exactly that tenant's users matching search and role |
| UserController.UserSetList | backend/src/controllers/userController.js:172-189 | the SET list yields the row `ApplyUserPatch` describes and is empty exactly when no applicable field is supplied |
| UserController.UpdateUser | backend/src/controllers/userController.js:139-217 | 404 iff missing; 403 iff neither self nor tenant_admin of the user's tenant, or a non-admin sends role or isActive; 400 iff nothing applies; on success only that user changes, to `ApplyUserPatch` of it, and one UPDATE_USER entry is appended under the user's tenant |
| UserController.DeleteUser | backend/src/controllers/userController.js:220-267 | self-deletion is 403 before any lookup, then non-admin 403, then 404, then cross-tenant 403; on success the user is gone, their tasks are unassigned, none is deleted, other users are unchanged |
| AuthController.FreeTenant | backend/src/controllers/authController.js:32-36 | a registered tenant is active, on plan `free`, with 5 users and 3 projects allowed |
| AuthController.RegisterTenant | backend/src/controllers/authController.js:8-75 | 409 iff the lower-cased subdomain exists or the lower-cased e-mail exists in any tenant; a failed insert rolls back to the unchanged store; on success the tenant, its only user (an active tenant_admin) and one REGISTER_TENANT entry are all committed |
| AuthController.AccountOutcome | backend/src/controllers/authController.js:112-127 | once the account row is read: 403 exactly when it is inactive, checked before the password; 401 exactly when it is active and the password does not match; otherwise a token carrying exactly the account's id, tenant and role |
| AuthController.Login | backend/src/controllers/authController.js:78-159 | with a subdomain: 404 iff no tenant has it, 403 if that tenant is not active; the account is unique and the result is its `AccountOutcome`; none matching is 401; without a subdomain only super_admin accounts match, none matching is 401, and otherwise the result is the `AccountOutcome` of one of them; success yields exactly the account's id, tenant and role and one LOGIN entry |
| AuthController.GetCurrentUser | backend/src/controllers/authController.js:162-209 | 404 iff the token's user is gone; otherwise the user's own columns, and the tenant named in the token iff that id is truthy and exists |
| AuthController.Logout | backend/src/controllers/authController.js:212-225 | appends one LOGOUT entry for the principal and changes no table |
| TenantController.ApplyTenantPatch | backend/src/controllers/tenantController.js:76-95 | the subdomain never changes; a non-super_admin changes at most the name; a super_admin's supplied fields all apply |
| TenantController.GetTenantDetails | backend/src/controllers/tenantController.js:5-51 | 403 iff a non-super_admin asks about another tenant; 404 iff missing; the stats are the tenant's user, project and task counts, and the task count equals the count of tasks in the tenant's projects |
| TenantController.TenantSetList | backend/src/controllers/tenantController.js:72-99 | the SET list yields the row `ApplyTenantPatch` describes and is empty exactly when no applicable field is supplied |
| TenantController.UpdateTenant | backend/src/controllers/tenantController.js:54-130 | 403 iff a non-super_admin targets another tenant or sends a restricted field; 400 iff nothing applies (checked before existence); 404 iff missing; on success only that tenant changes and one UPDATE_TENANT entry is appended |
| TenantController.ListTenants | backend/src/controllers/tenantController.js:133-200 | 403 iff not super_admin; the rows are exactly the tenants matching status and plan, each with its user and project counts |

## Left out

- Token signing and verification, password hashing and comparison, and uuid generation are parameters. Expiry, the secret and the hash format are not modelled.
- Timestamps (`created_at`, `updated_at`) and the `ORDER BY` clauses are not modelled.
- TaskController.ListTasks, ProjectController.ListProjects, UserController.ListUsers and TenantController.ListTenants return the whole filtered set with its total, offset and page count. They do not return the `LIMIT`/`OFFSET` slice, because the slice depends on the `ORDER BY` ordering, which is not modelled.
- TaskController.ListTasks, ProjectController.ListProjects, UserController.ListUsers and TenantController.ListTenants require `page >= 1` and `limit >= 1`. The source takes any query-string text and passes it to SQL.
- The count query of `listTenants` reuses one placeholder number for both filters (tenantController.js:156). The model counts the same filtered set the row query selects.
- Request validation (Joi schemas in validation.js) becomes preconditions. The creation handlers require the documented lengths and enumerations. AddUser admits only `user` and `tenant_admin`.
- UserController.UpdateUser, TaskController.UpdateTask, ProjectController.UpdateProject and TenantController.UpdateTenant take typed fields. For example, `{"description": null}` clears a project's description in the source, and the model cannot express it. A JSON `null`, or a value of the wrong type, is not modelled. Roles are limited to the three the system defines.
- TaskController.UpdateTaskStatus takes the new status as a string. A request without one is not modelled.
- Text.ToLower folds only ASCII letters. `ILIKE` is case-insensitive substring search. The `%` and `_` wildcards inside a search term are not interpreted.
- Quota checks are check-then-insert without a transaction. The bound proved by CreateProject and AddUser holds for requests handled one at a time. Concurrency is outside the model.
- Response shaping (the JSON field names, the joined creator and assignee names, hiding password hashes) is not modelled. `login` also reads the user's tenant row without using it, and this read is not modelled.
- The database schema is not part of this model. So the foreign-key action for the projects a deleted user created is unknown. The model keeps those projects, with `createdBy` unchanged.
- Express wiring, the health check, the database initialisation script and the React frontend are not part of this model.

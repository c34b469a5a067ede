# Access control of a shared todo-list server, in Dafny

The server keeps users, todo lists, per-user access grants (EDIT or VIEW), access
requests (PENDING or ACCEPTED) and todos in a relational database. It is written in
JavaScript with Express and PostgreSQL. This project models the server's access-control
layer and proves what each handler promises:

- **values.dfy**: request values as handlers see them. A body field is `undefined`, `null` or a
  string. A query parameter is absent or a string. Both use JavaScript truthiness.
- **enums.dfy**: the enumerations of `server/src/constants/enums.js`, with their wire names and the
  validation of incoming permission and status strings.
- **http.dfy**: replies. Each is a status plus either a payload or an `{error}` body, sometimes with
  extra fields.
- **store.dfy**: the five tables as maps in one `Database` object. `Valid()` is the invariant every
  handler keeps: unique usernames, no dangling list references, the owner's EDIT row, and no
  request on one's own list.
- **permissions.dfy**, **exists.dfy**: the read-only predicates of the permission and existence
  services. Each keeps the SQL's row set (including the LEFT JOIN and SQL's NULL comparison) and
  proves the exact boolean it amounts to.
- **query.dfy**: the query building in the todo controllers.
  - `addCondition` is a method of a `QueryBuilder` object that appends to its two arrays. Its
    invariant keeps each `$n` placeholder aligned with its parameter.
  - The filters and the partial `UPDATE ... SET` are built with it.
  - Also here: sort-column whitelisting and the upper-casing that picks the sort direction.
- **todo_lists.dfy**: the todo-list controllers.
  - Read-only handlers are functions of the tables, except `GetListTodos`, a method because it drives
    the query builder.
  - Writing handlers are methods. Each states every outcome in the order the code checks it, and
    gives the exact new tables.
  - A transaction's failing statement is a parameter, so rollback is modelled.
- **auth_gate.dfy**, **auth.dfy**: the session record and the `authRequired` middleware, plus
  register, login, logout and `me` over the users table and the session. The bcrypt hash is a
  function parameter.
- **routes.dfy**: the two routers and the application's mount table. Every todo-list route
  passes the gate first.

## Model

| member | source | states |
|---|---|---|
| Enums.ParsePermission | server/src/controllers/todo-lists.js:412-419 | a body permission is accepted exactly when it is the wire name of EDIT or VIEW, and then yields that permission |
| Enums.ParseRequestStatus | server/src/controllers/todo-lists.js:587-595 | a status string is accepted exactly when it is PENDING or ACCEPTED, and then yields that status |
| PermissionService.LeftJoinOneRowPerList | server/src/services/permissionService.js:13-15 | the LEFT JOIN keeps every list and yields exactly one row per list, carrying the user's access row or NULLs |
| PermissionService.AccessRowsShape | server/src/services/permissionService.js:11-21 | the access query returns the joined row when the list exists and the user owns it or has an access row, and no row otherwise |
| PermissionService.HasListAccess | server/src/services/permissionService.js:11-21 | access holds iff the list exists and the user owns it or has an access row of either permission |
| PermissionService.EditRowsShape | server/src/services/permissionService.js:30-40 | the edit query returns the joined row when the list exists and the user owns it or has an EDIT row, and no row otherwise |
| PermissionService.HasListEditPermission | server/src/services/permissionService.js:30-40 | edit permission holds iff the list exists and the user owns it or the access row says EDIT |
| PermissionService.IsListOwner | server/src/services/permissionService.js:49-56 | holds iff the list exists and its owner is the user |
| PermissionService.GetUserListAccess | server/src/services/permissionService.js:65-71 | the access row's permission when there is one, otherwise null, whoever owns the list |
| PermissionService.EditImpliesAccess | server/src/services/permissionService.js:11-40 | the edit query's rows are a subset of the access query's rows, so edit permission implies access |
| PermissionService.OwnerHasEditPermission | server/src/services/permissionService.js:35 | the owner of a list has edit permission on it, with or without an access row |
| PermissionService.ViewOnlyReadsButCannotEdit | server/src/services/permissionService.js:11-40 | a non-owner with a VIEW row has access but not edit permission |
| ExistsService.IsTodoExistingInList | server/src/services/existsService.js:10-16 | holds iff the todo exists and belongs to that list |
| ExistsService.TodoOfAnotherList | server/src/services/existsService.js:12 | a todo that exists but belongs to another list is reported as not existing in this one |
| ExistsService.IsListExisting | server/src/services/existsService.js:24-29 | holds iff the list exists |
| QueryBuilding.QueryBuilder.constructor | server/src/controllers/todo-lists.js:115-116 | the builder starts with no conditions and the key as parameter `$1` |
| QueryBuilding.QueryBuilder.AddCondition | server/src/controllers/todo-lists.js:35-39 | appends the value to the parameters, then appends one condition on the column whose placeholder is the new parameter count; the alignment invariant is preserved |
| QueryBuilding.ResolvePlaceholders | server/src/controllers/todo-lists.js:27-39 | after n conditions there are n+1 parameters, condition i uses `$(i+2)`, and binding the placeholders gives back exactly the column/value pairs added, in order |
| QueryBuilding.PlaceholdersSnoc | server/src/controllers/todo-lists.js:35-39 | adding one condition extends the conditions and the parameters by exactly one entry each, with the new placeholder equal to the new parameter count |
| QueryBuilding.BuildTodoFilter | server/src/controllers/todo-lists.js:115-128 | the builder ends up holding one condition per truthy filter among status, priority and due date, in that order, keyed by the list id |
| QueryBuilding.NoFiltersBaseQuery | server/src/controllers/todo-lists.js:115-134 | with no truthy filter there are no conditions and the only parameter is the list id |
| QueryBuilding.TodoFilterSemantics | server/src/controllers/todo-lists.js:101-134 | a todo satisfies the built WHERE clause iff it belongs to the list and equals every truthy filter value |
| QueryBuilding.SortColumn | server/src/controllers/todo-lists.js:137-144 | the sort column is always on the whitelist: the requested one when whitelisted, otherwise `due_date` |
| QueryBuilding.SortColumnIdempotent | server/src/controllers/todo-lists.js:144 | normalising an already normalised sort column changes nothing |
| QueryBuilding.UpperCaseIsDesc | server/src/controllers/todo-lists.js:145 | `toUpperCase()` yields "DESC" exactly for the four-letter spellings of "desc" in any mix of cases, with long s (ſ) also allowed for the s |
| QueryBuilding.SortDirection | server/src/controllers/todo-lists.js:145 | the direction is DESC exactly when a sortDir is given whose upper case is "DESC", and ASC otherwise, including when none is given |
| QueryBuilding.BuildTodoUpdate | server/src/controllers/todo-lists.js:351-372 | the builder ends up holding one SET entry per field that is not `undefined`, in body order, keyed by the todo id |
| QueryBuilding.ApplyAssignmentsAppend | server/src/controllers/todo-lists.js:380-387 | applying SET entries in two batches equals applying them all at once |
| QueryBuilding.UpdateIsPatch | server/src/controllers/todo-lists.js:351-378 | executing the built SET list rewrites exactly the fields that are not `undefined`, and the list is empty iff every field is `undefined` |
| QueryBuilding.ExecutedUpdateIsPatch | server/src/controllers/todo-lists.js:351-387 | the UPDATE as executed has `$1` bound to the todo id and every SET placeholder bound to a request value; it rewrites exactly the fields that are not `undefined`, and has no SET entry iff every field is `undefined` |
| TodoLists.GetLists | server/src/controllers/todo-lists.js:46-80 | `owned=true` gives exactly the user's own lists; otherwise exactly the lists the user holds an access row on (whose owner is a user), each with that row's permission and the owner's name |
| TodoLists.OwnedListsAreAccessible | server/src/controllers/todo-lists.js:60-71 | a list the user owns appears in the unfiltered view with EDIT, through the owner's access row |
| TodoLists.GetListTodos | server/src/controllers/todo-lists.js:86-183 | 403 iff the user has no access; otherwise 200 with exactly the list's todos that match every truthy filter, the normalised sort column (the requested one when whitelisted, else `due_date`), DESC iff requested; the owner is reported (with their username) iff the owner is a user, and the accessible users are exactly the list's access rows whose user exists, each with that user's name and permission |
| TodoLists.GetListTodo | server/src/controllers/todo-lists.js:189-220 | 200 iff the todo is in the list and the user has access, else 404; the reported permission is EDIT iff the user has edit permission |
| TodoLists.CreateList | server/src/controllers/todo-lists.js:226-268 | no title gives 400 and no change; a failing statement gives 500 and rolls back both tables; otherwise a new list with description defaulting to '' and an EDIT row for its owner |
| TodoLists.CreateListTodo | server/src/controllers/todo-lists.js:274-318 | 400 without a title, then 403 without edit permission, with no change; otherwise exactly one new todo with defaults '', null, NOT_STARTED and P1 for falsy fields |
| TodoLists.UpdateListTodo | server/src/controllers/todo-lists.js:324-400 | 403 without edit permission, then 404 when the todo is not in the list, then 400 when no field is given, with no change; otherwise only that todo changes, patched in the given fields |
| TodoLists.CreateListAccessRequest | server/src/controllers/todo-lists.js:406-486 | 400 for a permission other than EDIT/VIEW, 404 for a missing list, 400 for the owner, 409 with the current permission, 409 for an existing request, pending or not; otherwise exactly one PENDING request is inserted |
| TodoLists.AcceptIdempotent | server/src/controllers/todo-lists.js:526-546 | accepting the same request twice leaves the tables as one acceptance does |
| TodoLists.AcceptGrants | server/src/controllers/todo-lists.js:531-544 | acceptance marks the request ACCEPTED, sets the requester's access to the requested permission over any earlier grant, and touches no other key |
| TodoLists.UpdateListAccessRequest | server/src/controllers/todo-lists.js:492-565 | 400 unless the status is ACCEPTED, 403 for a non-owner, 404 for a missing request, 500 with rollback when a statement fails; otherwise the tables become those of an acceptance |
| TodoLists.GetListAccessRequests | server/src/controllers/todo-lists.js:572-626 | 403 for a non-owner, then 400 for a status other than PENDING/ACCEPTED; otherwise every request on the list whose requester is a user, each with the requester's name, exactly those of the given status when one is given |
| TodoLists.StatusFilterPartitions | server/src/controllers/todo-lists.js:606-612 | the PENDING and the ACCEPTED answers are disjoint and together make up the unfiltered answer |
| AuthGate.Session.constructor | server/src/controllers/auth.js:146 | a fresh or destroyed session holds no user id and no username |
| AuthGate.AuthRequiredAsWritten | server/src/middleware/authRequired.js:10-16 | with a session object, next() iff the user id is truthy, else 401 `Unauthorized`; without one it throws |
| AuthGate.AuthRequired | server/src/middleware/authRequired.js:10-16 | next() iff a session exists with a truthy user id, otherwise 401 `Unauthorized`, never both; equal to the code whenever a session exists |
| AuthGate.MissingSessionThrows | server/tests/unit/middleware.test.js:42-55 | a request without a session throws in the code, where the test expects a 401 |
| AuthGate.MiddlewareCases | server/tests/unit/middleware.test.js:6-55 | user id 123 passes, an empty session and a missing session get 401 |
| Auth.CompareOwnHash | server/src/controllers/auth.js:106 | a password always matches the digest stored for it |
| Auth.OneRowPerUsername | server/src/controllers/auth.js:92-103 | with unique usernames the lookup returns one row when the name is taken and none otherwise, so `rows[0]` is the only match |
| Auth.NoRowsIffNoUser | server/src/controllers/auth.js:29-33 | the lookup is empty iff no user has that name |
| Auth.Register | server/src/controllers/auth.js:13-71 | 400 without both credentials, 409 for a taken name, with no change; otherwise exactly one new user storing the hash, and the session holds that user and passes the gate |
| Auth.Login | server/src/controllers/auth.js:81-136 | 400 without both credentials; unknown name and wrong password give the same 401 with no change; success iff a user has that name and the password matches, and then the session holds that user, the lookup's only row |
| Auth.Logout | server/src/controllers/auth.js:144-157 | the session is emptied, so the gate then answers 401 |
| Auth.GetMe | server/src/controllers/auth.js:166-171 | returns the session's user id and username; behind the gate the id is present and non-zero |
| Auth.RegisterThenLogin | server/src/controllers/auth.js:13-136 | after registering, logging in with the same credentials from another session succeeds with the same id and name, and `getMe` reports that user |
| Routes.ServeTodoLists | server/src/routes/todo-lists.js:17-34 | 401 iff the gate denies, and then no table changes; otherwise, for each of the nine routes, the success status is answered exactly when the session user's controller succeeds, and a rejection leaves the tables that controller writes unchanged |
| Routes.ServeAuth | server/src/routes/auth.js:7-11 | register answers 201 exactly when both credentials are given and the name is free, login 200 exactly when a user with that name has a matching hash, and either then leaves a session the gate passes; `/me` answers 401 iff the gate denies and changes nothing; logout leaves a session the gate denies |
| Routes.Serve | server/src/app.js:32 | a request under no mounted router gets 404 and changes nothing; a mounted todo-list request gets 401 iff the gate denies; under /api/auth, logout answers 200 and leaves a denied session, `/me` answers 401 iff the gate denies, and register answers 201 iff both credentials are given and the name is free |
| Routes.UnauthenticatedListRequest | server/tests/integration/todo-lists.test.js:5-9 | an anonymous `GET /api/todo-lists` gets 404 from the app as written, and 401 once the todo-list router is mounted |

## Left out

- The SQL text, the database driver, `ORDER BY created_at` and the JSON aggregation of the
  metadata query. Tables are maps and query results are sets. A result's order is not modelled:
  `GetListTodos` reports the chosen sort column and direction, not a sorted sequence.
- Column types and constraints are not modelled: columns hold the body value unchanged. An enum column rejecting an unknown status, or a
  non-existent user id in a foreign key, would make the database fail with 500.
- The 404 "Todo not found" after the UPDATE in `updateListTodo` is not modelled. The existence
  check just before it makes it unreachable without concurrent writers.
- Concurrency is not modelled: `Promise.all`, and the check-then-insert races on usernames and
  requests. Handlers run one at a time.
- Database faults are modelled only in the two transactional controllers, as the failing statement
  number. The other handlers' 500 answers (a failing query, or a thrown exception) are not
  modelled.
- Serial sequences advance even when a transaction rolls back, as PostgreSQL sequences do.
- bcrypt's salting and cost factor are not modelled. Hashing is a deterministic function parameter,
  and `compare` checks hash equality.
- Session `regenerate` and `destroy` and their error callbacks (500), cookie handling, and CORS
  setup are not modelled. The session is a record with a user id and a username.
- Path parameters arrive as strings in the source. The model receives them as integer ids.
- Body and query values that are neither strings nor null (numbers, arrays, objects) are not
  modelled. On such values `toUpperCase` would throw.
- QueryBuilding.UpperChar: only the case mappings onto ASCII capital letters are
  modelled (a–z, dotless ı, long ſ). Every other character keeps its code point, which cannot
  change whether the result is "DESC".
- ServeTodoLists, ServeAuth: each route's status and whether the tables change are stated, but the
  new tables on success are not restated there; the controllers' own contracts state them.
- The socket.io room broadcast in server/src/index.js is not modelled; it is network pub/sub.
- All client code is not modelled.
- server/src/constants/httpStatus.js is not part of this model. Statuses are named by their
  standard meaning and carry the standard codes.
- The todo-list router is served under /api/todo-lists, as the integration tests address it.
  server/src/app.js as written mounts only /api/auth (see Findings).

## Findings

| source | as written | input that shows it | evidently intended | confidence | as-written member | corrected member |
|---|---|---|---|---|---|---|
| server/src/middleware/authRequired.js:11 | reads `req.session.userId` without checking that `req.session` exists | a request object without `session`, as in server/tests/unit/middleware.test.js:42-55 | answer 401 `{error: 'Unauthorized'}` and do not call next() | high (not executed) | AuthGate.MissingSessionThrows | AuthGate.AuthRequired |
| server/src/app.js:32 | mounts only the auth router, so no route answers /api/todo-lists | an anonymous `GET /api/todo-lists`, as in server/tests/integration/todo-lists.test.js:5-9 | mount the todo-list router at /api/todo-lists, behind its gate | medium (not executed) | Routes.UnauthenticatedListRequest | Routes.ServeTodoLists |

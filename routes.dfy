/** Request routing of server/src/app.js, server/src/routes/auth.js and
    server/src/routes/todo-lists.js: which controller a request reaches, and the
    authentication gate standing in front of the todo-list router and of `/me`. */
module Routes {
  import opened Values
  import opened Enums
  import opened Http
  import opened Store
  import opened AuthGate
  import opened Auth
  import opened PermissionService
  import opened ExistsService
  import opened TodoLists

  /** The query string of `GET /:listId/todos`. */
  datatype TodoQuery = TodoQuery(status: Option<string>, priority: Option<string>, dueDate: Option<string>,
                                 sortBy: Option<string>, sortDir: Option<string>)

  /** The body fields of a todo. */
  datatype TodoBody = TodoBody(title: JsValue, description: JsValue, dueDate: JsValue, status: JsValue, priority: JsValue)

  /** The routes of the todo-list router, with the path parameters and body fields each
      controller reads. */
  datatype TodoListRoute =
    | ListLists(owned: Option<string>)
    | PostList(title: JsValue, description: JsValue)
    | ListTodos(listId: ListId, query: TodoQuery)
    | PostTodo(listId: ListId, body: TodoBody)
    | ShowTodo(listId: ListId, todoId: TodoId)
    | PutTodo(listId: ListId, todoId: TodoId, body: TodoBody)
    | ListRequests(listId: ListId, statusFilter: Option<string>)
    | PostRequest(listId: ListId, permission: JsValue)
    | PutRequest(listId: ListId, requester: UserId, requestStatus: JsValue)

  /** The routes of the auth router; only `/me` sits behind the gate. */
  datatype AuthRoute =
    | RegisterRoute(username: JsValue, password: JsValue)
    | LoginRoute(username: JsValue, password: JsValue)
    | LogoutRoute
    | MeRoute

  datatype Request =
    | ToAuth(authRoute: AuthRoute)          // under /api/auth
    | ToTodoLists(listRoute: TodoListRoute) // under /api/todo-lists
    | Elsewhere

  /** The application's router table: as written it mounts the auth router only; the
      corrected one also mounts the todo-list router under /api/todo-lists. */
  datatype App = AuthOnly | WithTodoLists

  predicate Mounts(app: App, req: Request) {
    req.ToAuth? || (req.ToTodoLists? && app == WithTodoLists)
  }

  function StatusOf<T>(r: Reply<T>): Status {
    r.status
  }

  /** The todo-list router: `router.use(authRequired)` first, then the controller of the
      route, with the session's user id. */
  method ServeTodoLists(db: Database, session: Session, route: TodoListRoute, failAt: Fault)
    returns (status: Status)
    requires db.Valid()
    modifies db
    ensures db.Valid()
    ensures AuthRequired(session) != Next ==> status == Unauthorized && unchanged(db)
    ensures status == Unauthorized <==> AuthRequired(session) != Next
    ensures AuthRequired(session) == Next && route.ListLists? ==> status == Ok && unchanged(db)
    ensures AuthRequired(session) == Next && route.ShowTodo? ==>
      status == StatusOf(GetListTodo(db, session.userId.value, route.listId, route.todoId)) && unchanged(db)
    ensures AuthRequired(session) == Next && route.ListRequests? ==>
      status == StatusOf(GetListAccessRequests(db, session.userId.value, route.listId, route.statusFilter)) && unchanged(db)
    ensures AuthRequired(session) == Next && route.PostList? ==>
      && (status == Created <==> Truthy(route.title) && !TransactionFails(failAt))
      && (status != Created ==> db.lists == old(db.lists) && db.access == old(db.access))
    ensures AuthRequired(session) == Next && route.ListTodos? ==>
      && (status == Ok <==> HasListAccess(db.lists, db.access, session.userId.value, route.listId))
      && (status != Ok ==> status == Forbidden)
      && unchanged(db)
    ensures AuthRequired(session) == Next && route.PostTodo? ==>
      && (status == Created <==>
            Truthy(route.body.title) && HasListEditPermission(old(db.lists), old(db.access), session.userId.value, route.listId))
      && (status != Created ==> unchanged(db))
    ensures AuthRequired(session) == Next && route.PutTodo? ==>
      && (status == Ok <==>
            && HasListEditPermission(old(db.lists), old(db.access), session.userId.value, route.listId)
            && IsTodoExistingInList(old(db.todos), route.todoId, route.listId)
            && route.body != TodoBody(Undefined, Undefined, Undefined, Undefined, Undefined))
      && (status != Ok ==> unchanged(db))
    ensures AuthRequired(session) == Next && route.PostRequest? ==>
      && (status == Created <==>
            && PermissionInBody(route.permission).Some? && route.listId in old(db.lists)
            && old(db.lists)[route.listId].ownerId != session.userId.value
            && (route.listId, session.userId.value) !in old(db.access)
            && (route.listId, session.userId.value) !in old(db.requests))
      && (status != Created ==> unchanged(db))
    ensures AuthRequired(session) == Next && route.PutRequest? ==>
      && (status == Ok <==>
            && route.requestStatus == Str(Accepted.Name())
            && IsListOwner(old(db.lists), session.userId.value, route.listId)
            && (route.listId, route.requester) in old(db.requests)
            && !TransactionFails(failAt))
      && (status != Ok ==> db.requests == old(db.requests) && db.access == old(db.access))
  {
    var gate := AuthRequired(session);
    if gate != Next {
      return Unauthorized;
    }
    var userId := session.userId.value;
    match route
    case ListLists(owned) =>
      var lists := GetLists(db, userId, owned);
      status := Ok;
    case PostList(title, description) =>
      var r := CreateList(db, userId, title, description, failAt);
      status := r.status;
    case ListTodos(listId, q) =>
      var r := GetListTodos(db, userId, listId, q.status, q.priority, q.dueDate, q.sortBy, q.sortDir);
      status := r.status;
    case PostTodo(listId, b) =>
      var r := CreateListTodo(db, userId, listId, b.title, b.description, b.dueDate, b.status, b.priority);
      status := r.status;
    case ShowTodo(listId, todoId) =>
      status := StatusOf(GetListTodo(db, userId, listId, todoId));
    case PutTodo(listId, todoId, b) =>
      var r := UpdateListTodo(db, userId, listId, todoId, b.title, b.description, b.dueDate, b.status, b.priority);
      status := r.status;
    case ListRequests(listId, statusFilter) =>
      status := StatusOf(GetListAccessRequests(db, userId, listId, statusFilter));
    case PostRequest(listId, permission) =>
      var r := CreateListAccessRequest(db, userId, listId, permission);
      status := r.status;
    case PutRequest(listId, requester, requestStatus) =>
      var r := UpdateListAccessRequest(db, userId, listId, requester, requestStatus, failAt);
      status := r.status;
  }

  /** The auth router: register, login and logout are open; `/me` passes the gate first. */
  method ServeAuth(db: Database, session: Session, route: AuthRoute, hash: string -> string)
    returns (status: Status)
    requires db.Valid()
    modifies db, session
    ensures db.Valid()
    ensures route.MeRoute? ==> unchanged(db) && unchanged(session)
    ensures route.MeRoute? ==> (status == Unauthorized <==> AuthRequired(session) != Next)
    ensures route.MeRoute? && status != Unauthorized ==> status == Ok
    ensures route.LogoutRoute? ==> status == Ok && AuthRequired(session) == Deny(UnauthorizedError)
    ensures !route.RegisterRoute? ==> unchanged(db)
    ensures route.RegisterRoute? ==>
      && (status == Created <==>
            Truthy(route.username) && Truthy(route.password) && !HasUsername(old(db.users), route.username.s))
      && (status == Created ==> AuthRequired(session) == Next)
      && (status != Created ==> unchanged(db) && unchanged(session))
    ensures route.LoginRoute? ==>
      && (status == Ok <==>
            && Truthy(route.username) && Truthy(route.password)
            && exists id :: id in db.users && db.users[id].username == route.username.s
                            && Compare(hash, route.password.s, db.users[id].passwordHash))
      && (status == Ok ==> AuthRequired(session) == Next)
      && (status != Ok ==> unchanged(session))
  {
    match route
    case RegisterRoute(username, password) =>
      var r := Register(db, session, username, password, hash);
      status := r.status;
    case LoginRoute(username, password) =>
      var r := Login(db, session, username, password, hash);
      status := r.status;
    case LogoutRoute =>
      var r := Logout(session);
      status := r.status;
    case MeRoute =>
      var gate := AuthRequired(session);
      if gate != Next {
        return Unauthorized;
      }
      var me := GetMe(session);
      status := Ok;
  }

  /** The application: a request under a mounted router reaches it; any other request gets
      Express's default 404 and changes nothing. */
  method Serve(app: App, db: Database, session: Session, req: Request, hash: string -> string, failAt: Fault)
    returns (status: Status)
    requires db.Valid()
    modifies db, session
    ensures db.Valid()
    ensures !Mounts(app, req) ==> status == NotFound && unchanged(db) && unchanged(session)
    ensures Mounts(app, req) && req.ToTodoLists? ==> unchanged(session)
    ensures Mounts(app, req) && req.ToTodoLists? ==> (status == Unauthorized <==> AuthRequired(session) != Next)
    ensures Mounts(app, req) && req.ToTodoLists? && AuthRequired(session) != Next ==> unchanged(db)
    ensures req.ToAuth? && req.authRoute.LogoutRoute? ==> status == Ok && AuthRequired(session) == Deny(UnauthorizedError)
    ensures req.ToAuth? && req.authRoute.MeRoute? ==> (status == Unauthorized <==> AuthRequired(session) != Next)
    ensures req.ToAuth? && req.authRoute.RegisterRoute? ==>
      (status == Created <==>
         Truthy(req.authRoute.username) && Truthy(req.authRoute.password)
         && !HasUsername(old(db.users), req.authRoute.username.s))
  {
    if !Mounts(app, req) {
      return NotFound;
    }
    if req.ToAuth? {
      status := ServeAuth(db, session, req.authRoute, hash);
    } else {
      status := ServeTodoLists(db, session, req.listRoute, failAt);
    }
  }

  /** `GET /api/todo-lists` without a login, as the integration test sends it: the
      application as written answers 404, since nothing is mounted at that path; with the
      todo-list router mounted the gate answers 401, which is what the test expects. */
  method UnauthenticatedListRequest(db: Database, hash: string -> string)
    returns (asWritten: Status, mounted: Status)
    requires db.Valid()
    modifies db
    ensures asWritten == NotFound && mounted == Unauthorized
    ensures unchanged(db)
  {
    var anonymous := new Session();
    var req := ToTodoLists(ListLists(None));
    asWritten := Serve(AuthOnly, db, anonymous, req, hash, None);
    mounted := Serve(WithTodoLists, db, anonymous, req, hash, None);
  }
}

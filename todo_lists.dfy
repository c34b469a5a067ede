/** The todo-list controllers of server/src/controllers/todo-lists.js, over the store.
    Read-only handlers are functions of the tables; handlers that write are methods that
    change the `Database` and say exactly what its new tables are. Every handler receives
    the session's user id after the authentication gate has let the request through. */
module TodoLists {
  import opened Values
  import opened Enums
  import opened Http
  import opened Store
  import opened PermissionService
  import opened ExistsService
  import opened QueryBuilding

  const TitleRequired := "Title is required"
  const NoAccessPermission := "No permission to access this list"
  const NoEditPermission := "No edit permission for this list"
  const TodoNotFoundOrNoAccess := "Todo not found, does not belong to the specified list, or no access permission"
  const TodoNotInList := "Todo not found or does not belong to the specified list"
  const NoFieldsToUpdate := "No fields to update"
  const ValidPermissionRequired := "Valid permission (EDIT or VIEW) is required"
  const ListNotFound := "Todo list not found"
  const AlreadyOwner := "You already own this list"
  const AlreadyHasAccess := "You already have access to this list"
  const RequestAlreadyPending := "Access request already pending"
  const RequestNotRenewable := "Cannot create a new request with the current status"
  const RequestSubmitted := "Access request submitted. Waiting for approval."
  const ValidStatusRequired := "Valid status (ACCEPTED) is required"
  const OnlyOwnerUpdates := "Only the list owner can update access requests"
  const RequestNotFound := "Access request not found"
  const OnlyOwnerViews := "Only the list owner can view access requests"
  const InvalidStatus := "Invalid status. Must be one of: PENDING, ACCEPTED"

  /** The write statement, counted from 1 inside a transaction, that the database rejects;
      None when every statement succeeds. */
  type Fault = Option<nat>

  // ---------------------------------------------------------------------------------
  // getLists

  datatype ListRow = ListRow(id: ListId, list: TodoList, permission: AccessPermission, ownerUsername: string)

  datatype ListsView = Owned(ids: set<ListId>) | Accessible(rows: set<ListRow>)

  /** `?owned=true`: the lists the user owns; otherwise every list the user holds an access
      row on, joined with the list and its owner's name. */
  function GetLists(db: Database, userId: UserId, owned: Option<string>): (r: ListsView)
    reads db
    ensures r.Owned? <==> owned == Some("true")
    ensures r.Owned? ==> forall l :: l in r.ids <==> IsListOwner(db.lists, userId, l)
    ensures r.Accessible? ==> forall row :: row in r.rows ==>
      && (row.id, userId) in db.access && row.permission == db.access[(row.id, userId)]
      && row.id in db.lists && row.list == db.lists[row.id]
      && row.list.ownerId in db.users && row.ownerUsername == db.users[row.list.ownerId].username
    ensures r.Accessible? ==> forall l :: (l, userId) in db.access && l in db.lists && db.lists[l].ownerId in db.users ==>
      ListRow(l, db.lists[l], db.access[(l, userId)], db.users[db.lists[l].ownerId].username) in r.rows
  {
    if owned == Some("true") then
      Owned(set l | l in db.lists && db.lists[l].ownerId == userId)
    else
      Accessible(set k | k in db.access && k.1 == userId && k.0 in db.lists && db.lists[k.0].ownerId in db.users
                   :: ListRow(k.0, db.lists[k.0], db.access[k], db.users[db.lists[k.0].ownerId].username))
  }

  /** Every list the user owns also appears in the unfiltered view, with EDIT, through the
      access row createList gives the owner. */
  lemma OwnedListsAreAccessible(db: Database, userId: UserId, l: ListId)
    requires db.Valid()
    requires IsListOwner(db.lists, userId, l) && userId in db.users
    ensures GetLists(db, userId, None).Accessible?
    ensures ListRow(l, db.lists[l], Edit, db.users[userId].username) in GetLists(db, userId, None).rows
  {
    var k := (l, userId);
    assert k in db.access && k.1 == userId && k.0 in db.lists && db.lists[k.0].ownerId in db.users;
  }

  // ---------------------------------------------------------------------------------
  // getListTodos

  datatype OwnerInfo = OwnerInfo(ownerId: UserId, username: string)
  datatype AccessibleUser = AccessibleUser(userId: UserId, username: string, permission: AccessPermission)

  /** The todos (by id, ordered by `sortColumn` in `direction`), the list's owner and the
      users holding access rows on it. */
  datatype TodoPage = TodoPage(
    todos: set<TodoId>,
    sortColumn: string,
    direction: Direction,
    owner: Option<OwnerInfo>,
    accessibleUsers: set<AccessibleUser>)

  method GetListTodos(db: Database, userId: UserId, listId: ListId,
                      status: Option<string>, priority: Option<string>, dueDate: Option<string>,
                      sortBy: Option<string>, sortDir: Option<string>)
    returns (r: Reply<TodoPage>)
    ensures !HasListAccess(db.lists, db.access, userId, listId) <==> r == Failure(Forbidden, NoAccessPermission, NoDetail)
    ensures r.Success? <==> HasListAccess(db.lists, db.access, userId, listId)
    ensures r.Success? ==> r.status == Ok
    ensures r.Success? ==> forall id :: id in r.value.todos <==>
      id in db.todos && db.todos[id].listId == listId && MatchesFilters(db.todos[id], status, priority, dueDate)
    ensures r.Success? ==> r.value.sortColumn == SortColumn(sortBy) && r.value.sortColumn in ValidSortColumns
    ensures r.Success? ==> (r.value.direction == Desc <==> sortDir.Some? && IsDescSpelling(sortDir.value))
    ensures r.Success? ==> (r.value.owner.Some? <==> db.lists[listId].ownerId in db.users)
    ensures r.Success? && r.value.owner.Some? ==>
      r.value.owner.value == OwnerInfo(db.lists[listId].ownerId, db.users[db.lists[listId].ownerId].username)
    ensures r.Success? ==> forall a :: a in r.value.accessibleUsers <==>
      && (listId, a.userId) in db.access && db.access[(listId, a.userId)] == a.permission
      && a.userId in db.users && a.username == db.users[a.userId].username
  {
    var hasAccess := HasListAccess(db.lists, db.access, userId, listId);
    if !hasAccess {
      return Failure(Forbidden, NoAccessPermission, NoDetail);
    }
    var q := BuildTodoFilter(listId, status, priority, dueDate);
    ResolvePlaceholders(q.key, q.assignments);
    var todos := set id | id in db.todos && db.todos[id].listId in db.lists
                          && WhereHolds(db.todos[id], q.conditions, q.queryParams);
    forall id | id in db.todos
      ensures id in todos <==> db.todos[id].listId == listId && MatchesFilters(db.todos[id], status, priority, dueDate)
    {
      TodoFilterSemantics(db.todos[id], listId, status, priority, dueDate);
    }
    var sortColumn := SortColumn(sortBy);
    var direction := SortDirection(sortDir);
    var owner := if db.lists[listId].ownerId in db.users
                 then Some(OwnerInfo(db.lists[listId].ownerId, db.users[db.lists[listId].ownerId].username))
                 else None;
    var accessibleUsers := set k | k in db.access && k.0 == listId && k.1 in db.users
                                 :: AccessibleUser(k.1, db.users[k.1].username, db.access[k]);
    r := Success(Ok, TodoPage(todos, sortColumn, direction, owner, accessibleUsers));
  }

  // ---------------------------------------------------------------------------------
  // getListTodo

  datatype TodoView = TodoView(id: TodoId, todo: Todo, ownerId: UserId, permission: AccessPermission)

  /** `todos JOIN todo_lists LEFT JOIN todo_list_access` for one todo, with the permission
      column `CASE WHEN owner THEN 'EDIT' ELSE tla.permission END`. */
  function GetListTodo(db: Database, userId: UserId, listId: ListId, todoId: TodoId): (r: Reply<TodoView>)
    reads db
    ensures r.Success? <==> IsTodoExistingInList(db.todos, todoId, listId) && HasListAccess(db.lists, db.access, userId, listId)
    ensures r.Failure? ==> r == Failure(NotFound, TodoNotFoundOrNoAccess, NoDetail)
    ensures r.Success? ==> r.status == Ok && r.value.id == todoId && r.value.todo == db.todos[todoId]
    ensures r.Success? ==> (r.value.permission == Edit <==> HasListEditPermission(db.lists, db.access, userId, listId))
  {
    var rows := set id | id in db.todos && id == todoId && db.todos[id].listId == listId && db.todos[id].listId in db.lists
                         && var row := Joined(db.lists, db.access, userId, db.todos[id].listId);
                            row.ownerId == userId || SqlEquals(row.accessUser, userId);
    assert IsTodoExistingInList(db.todos, todoId, listId) && HasListAccess(db.lists, db.access, userId, listId) ==> todoId in rows;
    if |rows| == 0 then
      Failure(NotFound, TodoNotFoundOrNoAccess, NoDetail)
    else
      assert todoId in rows;
      var row := Joined(db.lists, db.access, userId, listId);
      Success(Ok, TodoView(todoId, db.todos[todoId], row.ownerId,
                           if row.ownerId == userId then Edit else row.permission.value))
  }

  // ---------------------------------------------------------------------------------
  // createList

  /** Whether the transaction's write statement `step` is the one the database rejects. */
  predicate FailsAt(failAt: Fault, step: nat) {
    failAt == Some(step)
  }

  /** Of the three statements in a transaction (two writes and COMMIT), one fails. */
  predicate TransactionFails(failAt: Fault) {
    failAt.Some? && 1 <= failAt.value <= 3
  }

  method CreateList(db: Database, userId: UserId, title: JsValue, description: JsValue, failAt: Fault)
    returns (r: Reply<ListId>)
    requires db.Valid()
    modifies db
    ensures db.Valid()
    ensures db.users == old(db.users) && db.requests == old(db.requests) && db.todos == old(db.todos)
    ensures !Truthy(title) ==> r == Failure(BadRequest, TitleRequired, NoDetail) && unchanged(db)
    ensures Truthy(title) && TransactionFails(failAt) ==>
      r == Failure(InternalServerError, ServerError, NoDetail) && db.lists == old(db.lists) && db.access == old(db.access)
    ensures r.Success? <==> Truthy(title) && !TransactionFails(failAt)
    ensures r.Success? ==> r.status == Created && r.value !in old(db.lists)
    ensures r.Success? ==> db.lists == old(db.lists)[r.value := TodoList(userId, title, Or(description, Str("")))]
    ensures r.Success? ==> db.access == old(db.access)[(r.value, userId) := Edit]
  {
    if !Truthy(title) {
      return Failure(BadRequest, TitleRequired, NoDetail);
    }
    // BEGIN
    var savedLists, savedAccess := db.lists, db.access;
    // INSERT INTO todo_lists ... RETURNING *: the serial advances even if the insert fails
    var id := db.nextListId;
    db.nextListId := db.nextListId + 1;
    var failed := FailsAt(failAt, 1);
    if !failed {
      db.lists := db.lists[id := TodoList(userId, title, Or(description, Str("")))];
      // INSERT INTO todo_list_access: the owner gets EDIT
      failed := FailsAt(failAt, 2);
    }
    if !failed {
      db.access := db.access[(id, userId) := Edit];
      // COMMIT
      failed := FailsAt(failAt, 3);
    }
    if failed {
      // ROLLBACK
      db.lists, db.access := savedLists, savedAccess;
      r := Failure(InternalServerError, ServerError, NoDetail);
    } else {
      r := Success(Created, id);
    }
  }

  // ---------------------------------------------------------------------------------
  // createListTodo

  datatype TodoRow = TodoRow(id: TodoId, todo: Todo)

  method CreateListTodo(db: Database, userId: UserId, listId: ListId,
                        title: JsValue, description: JsValue, dueDate: JsValue, status: JsValue, priority: JsValue)
    returns (r: Reply<TodoRow>)
    requires db.Valid()
    modifies db
    ensures db.Valid()
    ensures db.users == old(db.users) && db.lists == old(db.lists) && db.access == old(db.access) && db.requests == old(db.requests)
    ensures !Truthy(title) ==> r == Failure(BadRequest, TitleRequired, NoDetail)
    ensures Truthy(title) && !HasListEditPermission(old(db.lists), old(db.access), userId, listId) ==>
      r == Failure(Forbidden, NoEditPermission, NoDetail)
    ensures r.Failure? ==> unchanged(db)
    ensures r.Success? <==> Truthy(title) && HasListEditPermission(old(db.lists), old(db.access), userId, listId)
    ensures r.Success? ==> r.status == Created && r.value.id !in old(db.todos)
    ensures r.Success? ==> db.todos == old(db.todos)[r.value.id := r.value.todo]
    ensures r.Success? ==> var t := r.value.todo;
      && t.listId == listId && t.title == title
      && t.description == (if Truthy(description) then description else Str(""))
      && t.dueDate == (if Truthy(dueDate) then dueDate else Null)
      && t.status == (if Truthy(status) then status else Str(NotStarted.Name()))
      && t.priority == (if Truthy(priority) then priority else Str(P1.Name()))
  {
    if !Truthy(title) {
      return Failure(BadRequest, TitleRequired, NoDetail);
    }
    var hasEditPermission := HasListEditPermission(db.lists, db.access, userId, listId);
    if !hasEditPermission {
      return Failure(Forbidden, NoEditPermission, NoDetail);
    }
    var todo := Todo(listId, title, Or(description, Str("")), Or(dueDate, Null),
                     Or(status, Str(NotStarted.Name())), Or(priority, Str(P1.Name())));
    var id := db.nextTodoId;
    db.nextTodoId := db.nextTodoId + 1;
    db.todos := db.todos[id := todo];
    r := Success(Created, TodoRow(id, todo));
  }

  // ---------------------------------------------------------------------------------
  // updateListTodo

  /** The row write of `UPDATE todos ... WHERE id = $1`: one stored todo is replaced by a
      todo of the same list. */
  method WriteTodo(db: Database, id: TodoId, updated: Todo)
    requires db.Valid() && id in db.todos && updated.listId == db.todos[id].listId && StoredTodo(updated)
    modifies db
    ensures db.Valid()
    ensures db.users == old(db.users) && db.lists == old(db.lists) && db.access == old(db.access) && db.requests == old(db.requests)
    ensures db.todos == old(db.todos)[id := updated]
  {
    db.todos := db.todos[id := updated];
  }

  method UpdateListTodo(db: Database, userId: UserId, listId: ListId, todoId: TodoId,
                        title: JsValue, description: JsValue, dueDate: JsValue, status: JsValue, priority: JsValue)
    returns (r: Reply<TodoRow>)
    requires db.Valid()
    modifies db
    ensures db.Valid()
    ensures db.users == old(db.users) && db.lists == old(db.lists) && db.access == old(db.access) && db.requests == old(db.requests)
    ensures !HasListEditPermission(old(db.lists), old(db.access), userId, listId) ==> r == Failure(Forbidden, NoEditPermission, NoDetail)
    ensures HasListEditPermission(old(db.lists), old(db.access), userId, listId) && !IsTodoExistingInList(old(db.todos), todoId, listId) ==>
      r == Failure(NotFound, TodoNotInList, NoDetail)
    ensures (&& HasListEditPermission(old(db.lists), old(db.access), userId, listId)
             && IsTodoExistingInList(old(db.todos), todoId, listId)
             && title == Undefined && description == Undefined && dueDate == Undefined && status == Undefined && priority == Undefined)
        ==> r == Failure(BadRequest, NoFieldsToUpdate, NoDetail)
    ensures r.Failure? ==> unchanged(db)
    ensures r.Success? <==> (&& HasListEditPermission(old(db.lists), old(db.access), userId, listId)
                             && IsTodoExistingInList(old(db.todos), todoId, listId)
                             && !(title == Undefined && description == Undefined && dueDate == Undefined
                                  && status == Undefined && priority == Undefined))
    ensures r.Success? ==> r.status == Ok && r.value.id == todoId && todoId in old(db.todos)
    ensures r.Success? ==> db.todos == old(db.todos)[todoId := Patch(old(db.todos)[todoId], title, description, dueDate, status, priority)]
    ensures r.Success? ==> r.value.todo == db.todos[todoId]
  {
    var hasEditPermission := HasListEditPermission(db.lists, db.access, userId, listId);
    var todoExists := IsTodoExistingInList(db.todos, todoId, listId);
    if !hasEditPermission {
      return Failure(Forbidden, NoEditPermission, NoDetail);
    }
    if !todoExists {
      return Failure(NotFound, TodoNotInList, NoDetail);
    }
    var q := BuildTodoUpdate(todoId, title, description, dueDate, status, priority);
    ExecutedUpdateIsPatch(db.todos[todoId], todoId, title, description, dueDate, status, priority);
    if |q.conditions| == 0 {
      return Failure(BadRequest, NoFieldsToUpdate, NoDetail);
    }
    // UPDATE todos SET <conditions> WHERE id = $1 RETURNING *
    var id := q.queryParams[0].id;
    assert id == todoId;
    var updated := ApplyAssignments(db.todos[id], Resolve(q.conditions, q.queryParams));
    assert updated == Patch(db.todos[todoId], title, description, dueDate, status, priority);
    WriteTodo(db, id, updated);
    r := Success(Ok, TodoRow(id, updated));
  }

  // ---------------------------------------------------------------------------------
  // createListAccessRequest

  /** The permission in the body when it is `EDIT` or `VIEW`. */
  function PermissionInBody(permission: JsValue): Option<AccessPermission> {
    if Truthy(permission) then ParsePermission(permission.s) else None
  }

  method CreateListAccessRequest(db: Database, userId: UserId, listId: ListId, permission: JsValue)
    returns (r: Reply<string>)
    requires db.Valid()
    modifies db
    ensures db.Valid()
    ensures db.users == old(db.users) && db.lists == old(db.lists) && db.access == old(db.access) && db.todos == old(db.todos)
    ensures PermissionInBody(permission).None? ==> r == Failure(BadRequest, ValidPermissionRequired, NoDetail)
    ensures PermissionInBody(permission).Some? ==>
      && (listId !in old(db.lists) ==> r == Failure(NotFound, ListNotFound, NoDetail))
      && (listId in old(db.lists) && old(db.lists)[listId].ownerId == userId ==>
            r == Failure(BadRequest, AlreadyOwner, NoDetail))
      && (listId in old(db.lists) && old(db.lists)[listId].ownerId != userId && (listId, userId) in old(db.access) ==>
            r == Failure(Conflict, AlreadyHasAccess, CurrentPermission(old(db.access)[(listId, userId)])))
      && (listId in old(db.lists) && old(db.lists)[listId].ownerId != userId && (listId, userId) !in old(db.access)
          && (listId, userId) in old(db.requests) ==>
            r == if old(db.requests)[(listId, userId)].status == Pending
                 then Failure(Conflict, RequestAlreadyPending, RequestedPermission(old(db.requests)[(listId, userId)].requestedPermission))
                 else Failure(Conflict, RequestNotRenewable, CurrentStatus(old(db.requests)[(listId, userId)].status)))
    ensures r.Failure? ==> unchanged(db)
    ensures r.Success? ==> r == Success(Created, RequestSubmitted)
    ensures r.Success? <==> (&& PermissionInBody(permission).Some? && listId in old(db.lists)
                             && old(db.lists)[listId].ownerId != userId
                             && (listId, userId) !in old(db.access) && (listId, userId) !in old(db.requests))
    ensures r.Success? ==>
      db.requests == old(db.requests)[(listId, userId) := AccessRequest(PermissionInBody(permission).value, Pending)]
  {
    var requested := PermissionInBody(permission);
    if requested.None? {
      return Failure(BadRequest, ValidPermissionRequired, NoDetail);
    }
    var isListValid := IsListExisting(db.lists, listId);
    if !isListValid {
      return Failure(NotFound, ListNotFound, NoDetail);
    }
    var isOwner := IsListOwner(db.lists, userId, listId);
    if isOwner {
      return Failure(BadRequest, AlreadyOwner, NoDetail);
    }
    var existingAccess := GetUserListAccess(db.access, userId, listId);
    if existingAccess.Some? {
      return Failure(Conflict, AlreadyHasAccess, CurrentPermission(existingAccess.value));
    }
    if (listId, userId) !in db.requests {
      db.requests := db.requests[(listId, userId) := AccessRequest(requested.value, Pending)];
      return Success(Created, RequestSubmitted);
    }
    var existingRequest := db.requests[(listId, userId)];
    if existingRequest.status == Pending {
      return Failure(Conflict, RequestAlreadyPending, RequestedPermission(existingRequest.requestedPermission));
    }
    return Failure(Conflict, RequestNotRenewable, CurrentStatus(existingRequest.status));
  }

  // ---------------------------------------------------------------------------------
  // updateListAccessRequest

  /** The tables after accepting the request of user `u` on list `l`: the request is
      ACCEPTED and the user's access row holds the requested permission, inserted or
      overwritten. */
  function AcceptRequest(requests: map<AccessKey, AccessRequest>, access: map<AccessKey, AccessPermission>, l: ListId, u: UserId)
    : (tables: (map<AccessKey, AccessRequest>, map<AccessKey, AccessPermission>))
    requires (l, u) in requests
  {
    (requests[(l, u) := requests[(l, u)].(status := Accepted)], access[(l, u) := requests[(l, u)].requestedPermission])
  }

  /** Accepting a request a second time leaves the tables as the first acceptance did. */
  lemma AcceptIdempotent(requests: map<AccessKey, AccessRequest>, access: map<AccessKey, AccessPermission>, l: ListId, u: UserId)
    requires (l, u) in requests
    ensures (l, u) in AcceptRequest(requests, access, l, u).0
    ensures var once := AcceptRequest(requests, access, l, u);
      AcceptRequest(once.0, once.1, l, u) == once
  {
    var once := AcceptRequest(requests, access, l, u);
    var twice := AcceptRequest(once.0, once.1, l, u);
    assert once.0[(l, u)].status == Accepted;
    assert once.0[(l, u)].(status := Accepted) == once.0[(l, u)];
    assert twice.0 == once.0;
    assert once.0[(l, u)].requestedPermission == requests[(l, u)].requestedPermission;
    assert twice.1 == once.1;
  }

  /** Accepting grants exactly the requested permission and touches no other key. */
  lemma AcceptGrants(requests: map<AccessKey, AccessRequest>, access: map<AccessKey, AccessPermission>, l: ListId, u: UserId)
    requires (l, u) in requests
    ensures var after := AcceptRequest(requests, access, l, u);
      && after.0.Keys == requests.Keys && after.1.Keys == access.Keys + {(l, u)}
      && after.0[(l, u)] == AccessRequest(requests[(l, u)].requestedPermission, Accepted)
      && after.1[(l, u)] == requests[(l, u)].requestedPermission
      && (forall k :: k in access && k != (l, u) ==> after.1[k] == access[k])
      && (forall k :: k in requests && k != (l, u) ==> after.0[k] == requests[k])
  {
  }

  datatype Acceptance = Acceptance(status: string, userId: UserId, listId: ListId)

  method UpdateListAccessRequest(db: Database, currentUserId: UserId, listId: ListId, userId: UserId, status: JsValue, failAt: Fault)
    returns (r: Reply<Acceptance>)
    requires db.Valid()
    modifies db
    ensures db.Valid()
    ensures db.users == old(db.users) && db.lists == old(db.lists) && db.todos == old(db.todos)
    ensures status != Str(Accepted.Name()) ==> r == Failure(BadRequest, ValidStatusRequired, NoDetail)
    ensures status == Str(Accepted.Name()) && !IsListOwner(old(db.lists), currentUserId, listId) ==>
      r == Failure(Forbidden, OnlyOwnerUpdates, NoDetail)
    ensures status == Str(Accepted.Name()) && IsListOwner(old(db.lists), currentUserId, listId) && (listId, userId) !in old(db.requests) ==>
      r == Failure(NotFound, RequestNotFound, NoDetail)
    ensures (&& status == Str(Accepted.Name()) && IsListOwner(old(db.lists), currentUserId, listId)
             && (listId, userId) in old(db.requests) && TransactionFails(failAt))
        ==> r == Failure(InternalServerError, ServerError, NoDetail)
    ensures r.Failure? ==> db.requests == old(db.requests) && db.access == old(db.access)
    ensures r.Success? <==> (&& status == Str(Accepted.Name()) && IsListOwner(old(db.lists), currentUserId, listId)
                             && (listId, userId) in old(db.requests) && !TransactionFails(failAt))
    ensures r.Success? ==> r == Success(Ok, Acceptance(Accepted.Name(), userId, listId))
    ensures r.Success? ==> (db.requests, db.access) == AcceptRequest(old(db.requests), old(db.access), listId, userId)
  {
    if !Truthy(status) || status != Str(Accepted.Name()) {
      return Failure(BadRequest, ValidStatusRequired, NoDetail);
    }
    var isOwner := IsListOwner(db.lists, currentUserId, listId);
    if !isOwner {
      return Failure(Forbidden, OnlyOwnerUpdates, NoDetail);
    }
    if (listId, userId) !in db.requests {
      return Failure(NotFound, RequestNotFound, NoDetail);
    }
    var requestedPermission := db.requests[(listId, userId)].requestedPermission;
    // BEGIN
    var savedRequests, savedAccess := db.requests, db.access;
    var failed := FailsAt(failAt, 1);
    if !failed {
      // UPDATE todo_list_access_requests SET status = $1
      db.requests := db.requests[(listId, userId) := db.requests[(listId, userId)].(status := Accepted)];
      failed := FailsAt(failAt, 2);
    }
    if !failed {
      // INSERT INTO todo_list_access ... ON CONFLICT DO UPDATE SET permission = $3
      db.access := db.access[(listId, userId) := requestedPermission];
      failed := FailsAt(failAt, 3);
    }
    if failed {
      // ROLLBACK
      db.requests, db.access := savedRequests, savedAccess;
      r := Failure(InternalServerError, ServerError, NoDetail);
    } else {
      r := Success(Ok, Acceptance(Accepted.Name(), userId, listId));
    }
  }

  // ---------------------------------------------------------------------------------
  // getListAccessRequests

  datatype RequestRow = RequestRow(listId: ListId, userId: UserId, requestedPermission: AccessPermission, status: RequestStatus, username: string)

  /** The requests on a list joined with the requester's name. */
  function RequestRows(db: Database, listId: ListId): set<RequestRow>
    reads db
  {
    set k | k in db.requests && k.0 == listId && k.1 in db.users
      :: RequestRow(k.0, k.1, db.requests[k].requestedPermission, db.requests[k].status, db.users[k.1].username)
  }

  /** Owner check first, then the optional status filter is validated and applied. */
  function GetListAccessRequests(db: Database, userId: UserId, listId: ListId, status: Option<string>): (r: Reply<set<RequestRow>>)
    reads db
    ensures !IsListOwner(db.lists, userId, listId) ==> r == Failure(Forbidden, OnlyOwnerViews, NoDetail)
    ensures IsListOwner(db.lists, userId, listId) && TruthyParam(status) && ParseRequestStatus(status.value).None? ==>
      r == Failure(BadRequest, InvalidStatus, NoDetail)
    ensures r.Success? <==> IsListOwner(db.lists, userId, listId) && (TruthyParam(status) ==> ParseRequestStatus(status.value).Some?)
    ensures r.Success? ==> r.status == Ok && r.value <= RequestRows(db, listId)
    ensures r.Success? ==> forall row :: row in r.value ==> row.listId == listId && (row.listId, row.userId) in db.requests
    ensures r.Success? && TruthyParam(status) ==> forall row :: row in r.value ==> row.status.Name() == status.value
    ensures r.Success? ==> forall u :: (listId, u) in db.requests && u in db.users ==>
      var req := db.requests[(listId, u)];
      var row := RequestRow(listId, u, req.requestedPermission, req.status, db.users[u].username);
      row in r.value <==> (TruthyParam(status) ==> req.status.Name() == status.value)
  {
    if !IsListOwner(db.lists, userId, listId) then
      Failure(Forbidden, OnlyOwnerViews, NoDetail)
    else if TruthyParam(status) && ParseRequestStatus(status.value).None? then
      Failure(BadRequest, InvalidStatus, NoDetail)
    else
      Success(Ok, set row | row in RequestRows(db, listId) && (TruthyParam(status) ==> row.status.Name() == status.value))
  }

  /** Filtering by PENDING and by ACCEPTED splits the unfiltered answer in two. */
  lemma StatusFilterPartitions(db: Database, userId: UserId, listId: ListId)
    requires IsListOwner(db.lists, userId, listId)
    ensures var all := GetListAccessRequests(db, userId, listId, None);
      var pending := GetListAccessRequests(db, userId, listId, Some(Pending.Name()));
      var accepted := GetListAccessRequests(db, userId, listId, Some(Accepted.Name()));
      && all.Success? && pending.Success? && accepted.Success?
      && pending.value + accepted.value == all.value
      && pending.value !! accepted.value
  {
    var all := GetListAccessRequests(db, userId, listId, None);
    var pending := GetListAccessRequests(db, userId, listId, Some(Pending.Name()));
    var accepted := GetListAccessRequests(db, userId, listId, Some(Accepted.Name()));
    assert all.value == RequestRows(db, listId);
    forall row | row in all.value ensures row in pending.value || row in accepted.value {
      if row.status == Pending {
        assert row in pending.value;
      } else {
        assert row in accepted.value;
      }
    }
  }
}

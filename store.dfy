/** The relational store the server talks to, as maps keyed by primary key.
    Table and column names follow the SQL the controllers send: users,
    todo_lists, todo_list_access, todo_list_access_requests and todos. */
module Store {
  import opened Values
  import opened Enums

  type UserId = int
  type ListId = int
  type TodoId = int

  /** Compound primary key (list_id, user_id) of the access and request tables. */
  type AccessKey = (ListId, UserId)

  datatype User = User(username: string, passwordHash: string)

  datatype TodoList = TodoList(ownerId: UserId, title: JsValue, description: JsValue)

  datatype Todo = Todo(
    listId: ListId,
    title: JsValue,
    description: JsValue,
    dueDate: JsValue,
    status: JsValue,
    priority: JsValue)

  datatype AccessRequest = AccessRequest(requestedPermission: AccessPermission, status: RequestStatus)

  /** A column value the controllers can write: never `undefined`. */
  predicate Stored(v: JsValue) {
    v != Undefined
  }

  predicate StoredTodo(t: Todo) {
    Stored(t.title) && Stored(t.description) && Stored(t.dueDate) && Stored(t.status) && Stored(t.priority)
  }

  /** The users table has at most one row per username. */
  predicate UniqueUsernames(users: map<UserId, User>) {
    forall a, b :: a in users && b in users && users[a].username == users[b].username ==> a == b
  }

  class Database {
    var users: map<UserId, User>
    var lists: map<ListId, TodoList>
    var access: map<AccessKey, AccessPermission>
    var requests: map<AccessKey, AccessRequest>
    var todos: map<TodoId, Todo>
    // the next values of the tables' serial sequences
    var nextUserId: int
    var nextListId: int
    var nextTodoId: int

    /** What the controllers maintain between requests: serial ids are positive and below
        their sequence, usernames are unique, every access row, request and todo refers to an
        existing list, every list owner holds an EDIT access row on their list, no owner has a
        request on their own list, and no column holds `undefined`. */
    ghost predicate Valid()
      reads this
    {
      && 0 < nextUserId && 0 < nextListId && 0 < nextTodoId
      && (forall id :: id in users ==> 0 < id < nextUserId)
      && (forall id :: id in lists ==> 0 < id < nextListId)
      && (forall id :: id in todos ==> 0 < id < nextTodoId)
      && UniqueUsernames(users)
      && (forall k :: k in access ==> k.0 in lists)
      && (forall k :: k in requests ==> k.0 in lists && k.1 != lists[k.0].ownerId)
      && (forall l :: l in lists ==> (l, lists[l].ownerId) in access && access[(l, lists[l].ownerId)] == Edit)
      && (forall id :: id in todos ==> todos[id].listId in lists && StoredTodo(todos[id]))
    }

    constructor ()
      ensures Valid()
      ensures users == map[] && lists == map[] && access == map[] && requests == map[] && todos == map[]
    {
      users, lists, access, requests, todos := map[], map[], map[], map[], map[];
      nextUserId, nextListId, nextTodoId := 1, 1, 1;
    }
  }
}

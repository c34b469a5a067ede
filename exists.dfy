/** The read-only existence checks of server/src/services/existsService.js. */
module ExistsService {
  import opened Store

  /** isTodoExistingInList: `SELECT 1 FROM todos WHERE id = $1 AND list_id = $2`. */
  function IsTodoExistingInList(todos: map<TodoId, Todo>, todoId: TodoId, listId: ListId): (r: bool)
    ensures r <==> todoId in todos && todos[todoId].listId == listId
  {
    var rows := set id | id in todos && id == todoId && todos[id].listId == listId;
    assert todoId in todos && todos[todoId].listId == listId ==> todoId in rows;
    |rows| > 0
  }

  /** isListExisting: `SELECT 1 FROM todo_lists WHERE id = $1`. */
  function IsListExisting(lists: map<ListId, TodoList>, listId: ListId): (r: bool)
    ensures r <==> listId in lists
  {
    var rows := set id | id in lists && id == listId;
    assert listId in lists ==> listId in rows;
    |rows| > 0
  }

  /** A todo that exists in another list is reported as not existing in this one. */
  lemma TodoOfAnotherList(todos: map<TodoId, Todo>, todoId: TodoId, listId: ListId)
    requires todoId in todos && todos[todoId].listId != listId
    ensures !IsTodoExistingInList(todos, todoId, listId)
  {
  }
}

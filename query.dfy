/** The query-building helpers of server/src/controllers/todo-lists.js: `addCondition`,
    which grows a list of `column = $n` conditions and the matching parameter array in
    place; the filter and update clauses built with it; and the normalisation of the sort
    column and direction. The SQL text itself is not modelled: a condition is kept as its
    column and the index of its placeholder, and the database's reading of a query is
    given by `Resolve`, which binds each placeholder to its parameter. */
module QueryBuilding {
  import opened Values
  import opened Store

  /** The todo columns the controllers filter on or update. */
  datatype TodoColumn = Title | Description | DueDate | Status | Priority {
    function SqlName(): string {
      match this
      case Title => "title"
      case Description => "description"
      case DueDate => "due_date"
      case Status => "status"
      case Priority => "priority"
    }
  }

  /** The condition text `column = $placeholder`. */
  datatype Condition = Condition(column: TodoColumn, placeholder: nat)

  /** A query parameter: the id bound to `$1`, or a value taken from the request. */
  datatype SqlParam = Key(id: int) | Val(v: JsValue)

  /** A column paired with the value a handler wants compared with it or written to it. */
  datatype Assignment = Assignment(column: TodoColumn, value: JsValue)

  /** The conditions `addCondition` produces for `fs`, starting after `$1`. */
  function Placeholders(fs: seq<Assignment>): seq<Condition> {
    seq(|fs|, i requires 0 <= i < |fs| => Condition(fs[i].column, i + 2))
  }

  /** The parameter array `[key]` after `addCondition` has pushed the values of `fs`. */
  function Params(key: int, fs: seq<Assignment>): seq<SqlParam> {
    [Key(key)] + seq(|fs|, i requires 0 <= i < |fs| => Val(fs[i].value))
  }

  /** Every placeholder names a parameter position holding a request value. */
  predicate Bindable(cs: seq<Condition>, ps: seq<SqlParam>) {
    forall i :: 0 <= i < |cs| ==> 1 <= cs[i].placeholder <= |ps| && ps[cs[i].placeholder - 1].Val?
  }

  /** What the database executes: each `column = $n` with `$n` bound to the n-th parameter. */
  function Resolve(cs: seq<Condition>, ps: seq<SqlParam>): seq<Assignment>
    requires Bindable(cs, ps)
  {
    seq(|cs|, i requires 0 <= i < |cs| && Bindable(cs, ps) => Assignment(cs[i].column, ps[cs[i].placeholder - 1].v))
  }

  /** Placeholder alignment: starting from `[key]`, there is one more parameter than there
      are conditions, condition i says `$(i+2)`, and binding the placeholders gives back
      exactly the pairs that were added, in order. */
  lemma ResolvePlaceholders(key: int, fs: seq<Assignment>)
    ensures |Params(key, fs)| == |Placeholders(fs)| + 1
    ensures forall i :: 0 <= i < |fs| ==> Placeholders(fs)[i].placeholder == i + 2
    ensures Bindable(Placeholders(fs), Params(key, fs))
    ensures Resolve(Placeholders(fs), Params(key, fs)) == fs
  {
    var cs, ps := Placeholders(fs), Params(key, fs);
    forall i | 0 <= i < |cs|
      ensures 1 <= cs[i].placeholder <= |ps| && ps[cs[i].placeholder - 1] == Val(fs[i].value)
    {
      assert ps[i + 1] == Val(fs[i].value);
    }
  }

  /** Appending one pair extends both arrays by one element. */
  lemma PlaceholdersSnoc(key: int, fs: seq<Assignment>, a: Assignment)
    ensures Placeholders(fs + [a]) == Placeholders(fs) + [Condition(a.column, |Params(key, fs)| + 1)]
    ensures Params(key, fs + [a]) == Params(key, fs) + [Val(a.value)]
  {
  }

  /** The two arrays that `addCondition` mutates. The ghost fields record the request
      values added so far and the id in `$1`; `Valid` says the arrays are exactly what
      adding them produces. */
  class QueryBuilder {
    var conditions: seq<Condition>
    var queryParams: seq<SqlParam>
    ghost var key: int
    ghost var assignments: seq<Assignment>

    ghost predicate Valid()
      reads this
    {
      conditions == Placeholders(assignments) && queryParams == Params(key, assignments)
    }

    /** `const conditions = []; const queryParams = [key];` */
    constructor (key: int)
      ensures Valid() && this.key == key && assignments == []
      ensures conditions == [] && queryParams == [Key(key)]
    {
      conditions := [];
      queryParams := [Key(key)];
      this.key := key;
      assignments := [];
    }

    /** addCondition: push the value, then push a condition whose placeholder is the new
        length of the parameter array. */
    method AddCondition(column: TodoColumn, value: JsValue)
      modifies this
      ensures queryParams == old(queryParams) + [Val(value)]
      ensures conditions == old(conditions) + [Condition(column, |queryParams|)]
      ensures key == old(key) && assignments == old(assignments) + [Assignment(column, value)]
      ensures old(Valid()) ==> Valid()
    {
      PlaceholdersSnoc(key, assignments, Assignment(column, value));
      queryParams := queryParams + [Val(value)];
      var paramIndex := |queryParams|;
      conditions := conditions + [Condition(column, paramIndex)];
      assignments := assignments + [Assignment(column, value)];
    }
  }

  // ---------------------------------------------------------------------------------
  // Filtering in getListTodos

  function ColumnValue(t: Todo, c: TodoColumn): JsValue {
    match c
    case Title => t.title
    case Description => t.description
    case DueDate => t.dueDate
    case Status => t.status
    case Priority => t.priority
  }

  /** SQL `=`: a comparison involving NULL is never true. */
  predicate SqlEq(a: JsValue, b: JsValue) {
    a != Null && b != Null && a == b
  }

  predicate Satisfies(t: Todo, fs: seq<Assignment>) {
    forall i :: 0 <= i < |fs| ==> SqlEq(ColumnValue(t, fs[i].column), fs[i].value)
  }

  /** `WHERE t.list_id = $1 AND c1 AND c2 ...` for one todo row. */
  predicate WhereHolds(t: Todo, cs: seq<Condition>, ps: seq<SqlParam>)
    requires Bindable(cs, ps)
  {
    |ps| > 0 && ps[0] == Key(t.listId) && Satisfies(t, Resolve(cs, ps))
  }

  /** The filters getListTodos adds: one per truthy query value, in the order status,
      priority, due date. */
  function TodoFilters(status: Option<string>, priority: Option<string>, dueDate: Option<string>): seq<Assignment> {
    (if TruthyParam(status) then [Assignment(Status, Str(status.value))] else [])
    + (if TruthyParam(priority) then [Assignment(Priority, Str(priority.value))] else [])
    + (if TruthyParam(dueDate) then [Assignment(DueDate, Str(dueDate.value))] else [])
  }

  /** Lines 115-128 of the controller: start from `[listId]` and add a condition per
      truthy filter. */
  method BuildTodoFilter(listId: ListId, status: Option<string>, priority: Option<string>, dueDate: Option<string>)
    returns (q: QueryBuilder)
    ensures fresh(q) && q.Valid() && q.key == listId
    ensures q.assignments == TodoFilters(status, priority, dueDate)
  {
    q := new QueryBuilder(listId);
    if TruthyParam(status) {
      q.AddCondition(Status, Str(status.value));
    }
    if TruthyParam(priority) {
      q.AddCondition(Priority, Str(priority.value));
    }
    if TruthyParam(dueDate) {
      q.AddCondition(DueDate, Str(dueDate.value));
    }
  }

  /** With no truthy filter the query is the base query over `list_id = $1` alone. */
  lemma NoFiltersBaseQuery(listId: ListId, status: Option<string>, priority: Option<string>, dueDate: Option<string>)
    requires !TruthyParam(status) && !TruthyParam(priority) && !TruthyParam(dueDate)
    ensures Placeholders(TodoFilters(status, priority, dueDate)) == []
    ensures Params(listId, TodoFilters(status, priority, dueDate)) == [Key(listId)]
  {
  }

  /** The meaning of the filters: the todo equals every truthy query value. */
  predicate MatchesFilters(t: Todo, status: Option<string>, priority: Option<string>, dueDate: Option<string>) {
    && (TruthyParam(status) ==> t.status == Str(status.value))
    && (TruthyParam(priority) ==> t.priority == Str(priority.value))
    && (TruthyParam(dueDate) ==> t.dueDate == Str(dueDate.value))
  }

  /** The filtered query selects exactly the todos of the list that match every truthy
      filter value. */
  lemma TodoFilterSemantics(t: Todo, listId: ListId, status: Option<string>, priority: Option<string>, dueDate: Option<string>)
    ensures Bindable(Placeholders(TodoFilters(status, priority, dueDate)), Params(listId, TodoFilters(status, priority, dueDate)))
    ensures WhereHolds(t, Placeholders(TodoFilters(status, priority, dueDate)), Params(listId, TodoFilters(status, priority, dueDate)))
      <==> t.listId == listId && MatchesFilters(t, status, priority, dueDate)
  {
    var fs := TodoFilters(status, priority, dueDate);
    ResolvePlaceholders(listId, fs);
    var s := if TruthyParam(status) then [Assignment(Status, Str(status.value))] else [];
    var p := if TruthyParam(priority) then [Assignment(Priority, Str(priority.value))] else [];
    var d := if TruthyParam(dueDate) then [Assignment(DueDate, Str(dueDate.value))] else [];
    assert fs == s + p + d;
    if TruthyParam(status) {
      assert fs[0] == Assignment(Status, Str(status.value));
    }
    if TruthyParam(priority) {
      assert fs[|s|] == Assignment(Priority, Str(priority.value));
    }
    if TruthyParam(dueDate) {
      assert fs[|s| + |p|] == Assignment(DueDate, Str(dueDate.value));
    }
    if MatchesFilters(t, status, priority, dueDate) {
      forall i | 0 <= i < |fs| ensures SqlEq(ColumnValue(t, fs[i].column), fs[i].value) {
        if i < |s| {
          assert fs[i] == s[i];
        } else if i < |s| + |p| {
          assert fs[i] == p[i - |s|];
        } else {
          assert fs[i] == d[i - |s| - |p|];
        }
      }
    }
  }

  // ---------------------------------------------------------------------------------
  // Sorting in getListTodos

  const ValidSortColumns: seq<string> := ["due_date", "status", "title", "priority", "created_at"]

  /** `sortBy` (default `due_date`) if it is whitelisted, `due_date` otherwise. */
  function SortColumn(sortBy: Option<string>): (c: string)
    ensures c in ValidSortColumns
    ensures sortBy.Some? && sortBy.value in ValidSortColumns ==> c == sortBy.value
    ensures sortBy.None? || sortBy.value !in ValidSortColumns ==> c == "due_date"
  {
    var requested := if sortBy.Some? then sortBy.value else "due_date";
    if requested in ValidSortColumns then requested else "due_date"
  }

  /** Normalising an already normalised column changes nothing. */
  lemma SortColumnIdempotent(sortBy: Option<string>)
    ensures SortColumn(Some(SortColumn(sortBy))) == SortColumn(sortBy)
  {
  }

  datatype Direction = Asc | Desc

  /** `String.prototype.toUpperCase` on one character, for the characters whose upper case
      is an ASCII letter: `a`-`z`, dotless i and long s. Every other character is left as
      it is. */
  function UpperChar(c: char): char {
    if 'a' <= c <= 'z' then (c as int - 32) as char
    else if c == 'ı' then 'I'
    else if c == 'ſ' then 'S'
    else c
  }

  function ToUpperCase(s: string): string {
    seq(|s|, i requires 0 <= i < |s| => UpperChar(s[i]))
  }

  /** The spellings whose upper case is `DESC`. */
  predicate IsDescSpelling(s: string) {
    && |s| == 4
    && (s[0] == 'd' || s[0] == 'D')
    && (s[1] == 'e' || s[1] == 'E')
    && (s[2] == 's' || s[2] == 'S' || s[2] == 'ſ')
    && (s[3] == 'c' || s[3] == 'C')
  }

  lemma UpperCaseIsDesc(s: string)
    ensures ToUpperCase(s) == "DESC" <==> IsDescSpelling(s)
  {
    var u := ToUpperCase(s);
    if u == "DESC" {
      assert |s| == 4;
      assert u[0] == 'D' && u[1] == 'E' && u[2] == 'S' && u[3] == 'C';
      assert UpperChar(s[0]) == 'D' && UpperChar(s[1]) == 'E' && UpperChar(s[2]) == 'S' && UpperChar(s[3]) == 'C';
    }
    if IsDescSpelling(s) {
      assert u[0] == 'D' && u[1] == 'E' && u[2] == 'S' && u[3] == 'C';
      assert u == "DESC";
    }
  }

  /** `sortDir` (default `asc`) is DESC exactly when its upper case is `DESC`. */
  function SortDirection(sortDir: Option<string>): (d: Direction)
    ensures d == Desc <==> sortDir.Some? && IsDescSpelling(sortDir.value)
  {
    var dir := if sortDir.Some? then sortDir.value else "asc";
    UpperCaseIsDesc(dir);
    if ToUpperCase(dir) == "DESC" then Desc else Asc
  }

  // ---------------------------------------------------------------------------------
  // The dynamic SET clause of updateListTodo

  /** One pair when the body field was sent (`!== undefined`), none otherwise. */
  function Given(c: TodoColumn, v: JsValue): seq<Assignment> {
    if v != Undefined then [Assignment(c, v)] else []
  }

  /** The columns updateListTodo sets, in the order the controller adds them. */
  function UpdateAssignments(title: JsValue, description: JsValue, dueDate: JsValue, status: JsValue, priority: JsValue): seq<Assignment> {
    Given(Title, title) + Given(Description, description) + Given(DueDate, dueDate) + Given(Status, status) + Given(Priority, priority)
  }

  /** Lines 351-372 of the controller: start from `[todoId]` and add a condition per
      field that is not undefined. */
  method BuildTodoUpdate(todoId: TodoId, title: JsValue, description: JsValue, dueDate: JsValue, status: JsValue, priority: JsValue)
    returns (q: QueryBuilder)
    ensures fresh(q) && q.Valid() && q.key == todoId
    ensures q.assignments == UpdateAssignments(title, description, dueDate, status, priority)
  {
    q := new QueryBuilder(todoId);
    if title != Undefined {
      q.AddCondition(Title, title);
    }
    assert q.Valid() && q.assignments == Given(Title, title);
    if description != Undefined {
      q.AddCondition(Description, description);
    }
    assert q.Valid() && q.assignments == Given(Title, title) + Given(Description, description);
    if dueDate != Undefined {
      q.AddCondition(DueDate, dueDate);
    }
    assert q.Valid() && q.assignments == Given(Title, title) + Given(Description, description) + Given(DueDate, dueDate);
    if status != Undefined {
      q.AddCondition(Status, status);
    }
    assert q.Valid() && q.assignments == Given(Title, title) + Given(Description, description) + Given(DueDate, dueDate) + Given(Status, status);
    if priority != Undefined {
      q.AddCondition(Priority, priority);
    }
  }

  function SetColumn(t: Todo, c: TodoColumn, v: JsValue): Todo {
    match c
    case Title => t.(title := v)
    case Description => t.(description := v)
    case DueDate => t.(dueDate := v)
    case Status => t.(status := v)
    case Priority => t.(priority := v)
  }

  /** `SET c1 = v1, c2 = v2, ...` applied to one row, left to right. */
  function ApplyAssignments(t: Todo, fs: seq<Assignment>): Todo
    decreases |fs|
  {
    if fs == [] then t else ApplyAssignments(SetColumn(t, fs[0].column, fs[0].value), fs[1..])
  }

  lemma {:induction false} ApplyAssignmentsAppend(t: Todo, a: seq<Assignment>, b: seq<Assignment>)
    ensures ApplyAssignments(t, a + b) == ApplyAssignments(ApplyAssignments(t, a), b)
    decreases |a|
  {
    if a == [] {
      assert a + b == b;
    } else {
      assert (a + b)[1..] == a[1..] + b;
      ApplyAssignmentsAppend(SetColumn(t, a[0].column, a[0].value), a[1..], b);
    }
  }

  /** The partial update the handler means: every field that was sent replaces the
      stored one, every other field (and the list) is kept. */
  function Patch(t: Todo, title: JsValue, description: JsValue, dueDate: JsValue, status: JsValue, priority: JsValue): Todo {
    Todo(t.listId,
      if title != Undefined then title else t.title,
      if description != Undefined then description else t.description,
      if dueDate != Undefined then dueDate else t.dueDate,
      if status != Undefined then status else t.status,
      if priority != Undefined then priority else t.priority)
  }

  /** Running the generated SET clause is the field-wise partial update, and it is empty
      exactly when no field was sent. */
  lemma UpdateIsPatch(t: Todo, title: JsValue, description: JsValue, dueDate: JsValue, status: JsValue, priority: JsValue)
    ensures ApplyAssignments(t, UpdateAssignments(title, description, dueDate, status, priority))
         == Patch(t, title, description, dueDate, status, priority)
    ensures UpdateAssignments(title, description, dueDate, status, priority) == []
        <==> title == Undefined && description == Undefined && dueDate == Undefined && status == Undefined && priority == Undefined
  {
    var g1, g2, g3, g4, g5 := Given(Title, title), Given(Description, description), Given(DueDate, dueDate), Given(Status, status), Given(Priority, priority);
    ApplyAssignmentsAppend(t, g1 + g2 + g3 + g4, g5);
    ApplyAssignmentsAppend(t, g1 + g2 + g3, g4);
    ApplyAssignmentsAppend(t, g1 + g2, g3);
    ApplyAssignmentsAppend(t, g1, g2);
  }

  /** The UPDATE the controller sends, as the database executes it: `$1` is the todo id, every
      placeholder of the SET list is bound to a request value, the bound SET list is the
      field-wise patch, and there is no SET entry exactly when no field was sent. */
  lemma ExecutedUpdateIsPatch(t: Todo, todoId: TodoId, title: JsValue, description: JsValue, dueDate: JsValue, status: JsValue, priority: JsValue)
    ensures var fs := UpdateAssignments(title, description, dueDate, status, priority);
      && Params(todoId, fs)[0] == Key(todoId)
      && Bindable(Placeholders(fs), Params(todoId, fs))
      && ApplyAssignments(t, Resolve(Placeholders(fs), Params(todoId, fs))) == Patch(t, title, description, dueDate, status, priority)
      && (|Placeholders(fs)| == 0
          <==> title == Undefined && description == Undefined && dueDate == Undefined && status == Undefined && priority == Undefined)
  {
    var fs := UpdateAssignments(title, description, dueDate, status, priority);
    ResolvePlaceholders(todoId, fs);
    UpdateIsPatch(t, title, description, dueDate, status, priority);
  }
}

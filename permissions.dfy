/** The read-only permission checks of server/src/services/permissionService.js.
    Each query is modelled as the set of rows it returns; a check holds when that set
    is not empty (`rowCount > 0`). */
module PermissionService {
  import opened Values
  import opened Enums
  import opened Store

  /** One row of `todo_lists tl LEFT JOIN todo_list_access tla
      ON tl.id = tla.list_id AND tla.user_id = u`: the access columns are NULL
      (None) when the user has no access row on the list. */
  datatype JoinedRow = JoinedRow(
    listId: ListId,
    ownerId: UserId,
    accessUser: Option<UserId>,
    permission: Option<AccessPermission>)

  /** The joined row of list `l` for user `u`. */
  function Joined(lists: map<ListId, TodoList>, access: map<AccessKey, AccessPermission>, u: UserId, l: ListId): JoinedRow
    requires l in lists
  {
    if (l, u) in access then JoinedRow(l, lists[l].ownerId, Some(u), Some(access[(l, u)]))
    else JoinedRow(l, lists[l].ownerId, None, None)
  }

  /** The whole left join for user `u`: one row per list. */
  function LeftJoinAccess(lists: map<ListId, TodoList>, access: map<AccessKey, AccessPermission>, u: UserId): set<JoinedRow> {
    set l | l in lists :: Joined(lists, access, u, l)
  }

  /** The LEFT JOIN keeps every list and yields exactly one row for each: the list's own
      row, carrying the user's access row when there is one. */
  lemma LeftJoinOneRowPerList(lists: map<ListId, TodoList>, access: map<AccessKey, AccessPermission>, u: UserId)
    ensures forall l :: l in lists ==> Joined(lists, access, u, l) in LeftJoinAccess(lists, access, u)
    ensures forall row :: row in LeftJoinAccess(lists, access, u) ==>
      row.listId in lists && row == Joined(lists, access, u, row.listId)
    ensures forall r1, r2 :: (r1 in LeftJoinAccess(lists, access, u) && r2 in LeftJoinAccess(lists, access, u)
                              && r1.listId == r2.listId) ==> r1 == r2
  {
  }

  /** SQL `a = b` where `a` may be NULL: a comparison with NULL is never true. */
  predicate SqlEquals<T(==)>(a: Option<T>, b: T) {
    a == Some(b)
  }

  /** `WHERE tl.id = $2 AND (tl.owner_id = $1 OR tla.user_id = $1)`. */
  function AccessRows(lists: map<ListId, TodoList>, access: map<AccessKey, AccessPermission>, u: UserId, l: ListId): set<JoinedRow> {
    set row | row in LeftJoinAccess(lists, access, u) && row.listId == l && (row.ownerId == u || SqlEquals(row.accessUser, u))
  }

  /** The join yields at most one row for a given list id: the list's own row, kept
      exactly when the user owns the list or has an access row on it. */
  lemma AccessRowsShape(lists: map<ListId, TodoList>, access: map<AccessKey, AccessPermission>, u: UserId, l: ListId)
    ensures AccessRows(lists, access, u, l) ==
      if l in lists && (lists[l].ownerId == u || (l, u) in access) then {Joined(lists, access, u, l)} else {}
  {
    if l in lists {
      assert Joined(lists, access, u, l) in LeftJoinAccess(lists, access, u);
    }
  }

  /** hasListAccess: the list exists and the user owns it or holds an access row of
      either permission. */
  function HasListAccess(lists: map<ListId, TodoList>, access: map<AccessKey, AccessPermission>, u: UserId, l: ListId): (r: bool)
    ensures r <==> l in lists && (lists[l].ownerId == u || (l, u) in access)
  {
    AccessRowsShape(lists, access, u, l);
    |AccessRows(lists, access, u, l)| > 0
  }

  /** `WHERE tl.id = $2 AND (tl.owner_id = $1 OR (tla.user_id = $1 AND tla.permission = 'EDIT'))`. */
  function EditRows(lists: map<ListId, TodoList>, access: map<AccessKey, AccessPermission>, u: UserId, l: ListId): set<JoinedRow> {
    set row | row in LeftJoinAccess(lists, access, u) && row.listId == l
      && (row.ownerId == u || (SqlEquals(row.accessUser, u) && SqlEquals(row.permission, Edit)))
  }

  lemma EditRowsShape(lists: map<ListId, TodoList>, access: map<AccessKey, AccessPermission>, u: UserId, l: ListId)
    ensures EditRows(lists, access, u, l) ==
      if l in lists && (lists[l].ownerId == u || ((l, u) in access && access[(l, u)] == Edit))
      then {Joined(lists, access, u, l)} else {}
  {
    if l in lists {
      assert Joined(lists, access, u, l) in LeftJoinAccess(lists, access, u);
    }
  }

  /** hasListEditPermission: the list exists and the user owns it or holds an EDIT row. */
  function HasListEditPermission(lists: map<ListId, TodoList>, access: map<AccessKey, AccessPermission>, u: UserId, l: ListId): (r: bool)
    ensures r <==> l in lists && (lists[l].ownerId == u || ((l, u) in access && access[(l, u)] == Edit))
  {
    EditRowsShape(lists, access, u, l);
    |EditRows(lists, access, u, l)| > 0
  }

  /** isListOwner: `SELECT 1 FROM todo_lists WHERE id = $1 AND owner_id = $2`. */
  function IsListOwner(lists: map<ListId, TodoList>, u: UserId, l: ListId): (r: bool)
    ensures r <==> l in lists && lists[l].ownerId == u
  {
    var rows := set id | id in lists && id == l && lists[id].ownerId == u;
    assert l in lists && lists[l].ownerId == u ==> l in rows;
    |rows| > 0
  }

  /** getUserListAccess: the permission of the user's access row, or null; the list's
      owner column is not consulted. */
  function GetUserListAccess(access: map<AccessKey, AccessPermission>, u: UserId, l: ListId): (r: Option<AccessPermission>)
    ensures r.Some? <==> (l, u) in access
    ensures r.Some? ==> r.value == access[(l, u)]
  {
    var rows := set k | k in access && k == (l, u);
    assert (l, u) in access ==> (l, u) in rows;
    if |rows| > 0 then Some(access[(l, u)]) else None
  }

  /** Both queries share the join, and the edit query's condition is the stronger one. */
  lemma EditImpliesAccess(lists: map<ListId, TodoList>, access: map<AccessKey, AccessPermission>, u: UserId, l: ListId)
    ensures EditRows(lists, access, u, l) <= AccessRows(lists, access, u, l)
    ensures HasListEditPermission(lists, access, u, l) ==> HasListAccess(lists, access, u, l)
  {
  }

  lemma OwnerHasEditPermission(lists: map<ListId, TodoList>, access: map<AccessKey, AccessPermission>, u: UserId, l: ListId)
    requires IsListOwner(lists, u, l)
    ensures HasListEditPermission(lists, access, u, l)
  {
  }

  /** A non-owner whose only grant is VIEW may read the list but not edit it. */
  lemma ViewOnlyReadsButCannotEdit(lists: map<ListId, TodoList>, access: map<AccessKey, AccessPermission>, u: UserId, l: ListId)
    requires l in lists && !IsListOwner(lists, u, l)
    requires GetUserListAccess(access, u, l) == Some(View)
    ensures HasListAccess(lists, access, u, l)
    ensures !HasListEditPermission(lists, access, u, l)
  {
  }
}

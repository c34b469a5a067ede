/** The enumerations shared by the server and the database schema
    (server/src/constants/enums.js). Each constructor carries the exact string the
    server sends to and reads from the database. */
module Enums {
  import opened Values

  datatype TodoStatus = NotStarted | InProgress | Completed | Blocked {
    function Name(): string {
      match this
      case NotStarted => "NOT_STARTED"
      case InProgress => "IN_PROGRESS"
      case Completed => "COMPLETED"
      case Blocked => "BLOCKED"
    }
  }

  datatype AccessPermission = Edit | View {
    function Name(): string {
      match this
      case Edit => "EDIT"
      case View => "VIEW"
    }
  }

  datatype TodoPriority = P0 | P1 | P2 | P3 {
    function Name(): string {
      match this
      case P0 => "P0"
      case P1 => "P1"
      case P2 => "P2"
      case P3 => "P3"
    }
  }

  datatype RequestStatus = Pending | Accepted {
    function Name(): string {
      match this
      case Pending => "PENDING"
      case Accepted => "ACCEPTED"
    }
  }

  /** `[EDIT, VIEW].includes(s)`, returning the permission that matched. */
  function ParsePermission(s: string): (r: Option<AccessPermission>)
    ensures forall p: AccessPermission :: r == Some(p) <==> s == p.Name()
  {
    if s == Edit.Name() then Some(Edit)
    else if s == View.Name() then Some(View)
    else None
  }

  /** `[PENDING, ACCEPTED].includes(s)`, returning the status that matched. */
  function ParseRequestStatus(s: string): (r: Option<RequestStatus>)
    ensures forall st: RequestStatus :: r == Some(st) <==> s == st.Name()
  {
    if s == Pending.Name() then Some(Pending)
    else if s == Accepted.Name() then Some(Accepted)
    else None
  }
}

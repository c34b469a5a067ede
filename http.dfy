/** HTTP replies of the controllers: a status and either a JSON payload or an error body. */
module Http {
  import opened Enums

  datatype Status = Ok | Created | BadRequest | Unauthorized | Forbidden | NotFound | Conflict | InternalServerError {
    /** The numeric code, with the standard values of RFC 9110. */
    function Code(): int {
      match this
      case Ok => 200
      case Created => 201
      case BadRequest => 400
      case Unauthorized => 401
      case Forbidden => 403
      case NotFound => 404
      case Conflict => 409
      case InternalServerError => 500
    }
  }

  /** Extra fields some 409 bodies carry besides `error`. */
  datatype Detail =
    | NoDetail
    | CurrentPermission(permission: AccessPermission)
    | RequestedPermission(requested: AccessPermission)
    | CurrentStatus(status: RequestStatus)

  datatype Reply<+T> =
    | Success(status: Status, value: T)
    | Failure(status: Status, error: string, detail: Detail)

  const ServerError := "Server error"
}

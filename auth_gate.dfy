/** The session record and the `authRequired` middleware of
    server/src/middleware/authRequired.js. */
module AuthGate {
  import opened Values

  /** The fields the server keeps in a client's session. */
  class Session {
    var userId: Option<int>
    var username: Option<string>

    /** A fresh session, as after `destroy` or before any login. */
    constructor ()
      ensures userId == None && username == None
    {
      userId, username := None, None;
    }
  }

  /** JavaScript truthiness of `session.userId`: absent and 0 are falsy. */
  predicate TruthyId(id: Option<int>) {
    id.Some? && id.value != 0
  }

  const UnauthorizedError := "Unauthorized"

  /** What the middleware does: call `next()`, deny with 401 and `{error: 'Unauthorized'}`,
      or throw. */
  datatype Gate = Next | Deny(error: string) | Throws

  /** The middleware as written: it reads `req.session.userId` without checking that
      `req.session` exists, so a request without a session object throws. */
  function AuthRequiredAsWritten(session: Session?): (g: Gate)
    reads session
    ensures session == null ==> g == Throws
    ensures session != null ==> (g == Next <==> TruthyId(session.userId))
    ensures session != null && g != Next ==> g == Deny(UnauthorizedError)
  {
    if session == null then Throws
    else if !TruthyId(session.userId) then Deny(UnauthorizedError)
    else Next
  }

  /** The gate the model uses: a missing session is answered like an empty one. Exactly one
      of `next()` and the 401 happens, and `next()` happens exactly for a truthy user id. */
  function AuthRequired(session: Session?): (g: Gate)
    reads session
    ensures g == Next <==> session != null && TruthyId(session.userId)
    ensures g != Next ==> g == Deny(UnauthorizedError)
    ensures session != null ==> g == AuthRequiredAsWritten(session)
  {
    if session == null || !TruthyId(session.userId) then Deny(UnauthorizedError)
    else Next
  }

  /** The request without a session, for which the unit test expects a 401: the middleware
      as written throws instead. */
  lemma MissingSessionThrows()
    ensures AuthRequiredAsWritten(null) == Throws
    ensures AuthRequired(null) == Deny(UnauthorizedError)
  {
  }

  /** The three cases of the middleware's unit test, on the gate the model uses: a
      logged-in session passes, an empty one and a missing one are denied. */
  method MiddlewareCases() returns (authenticated: Gate, anonymous: Gate, missing: Gate)
    ensures authenticated == Next
    ensures anonymous == Deny(UnauthorizedError) && missing == Deny(UnauthorizedError)
  {
    var loggedIn := new Session();
    loggedIn.userId := Some(123);
    authenticated := AuthRequired(loggedIn);
    var empty := new Session();
    anonymous := AuthRequired(empty);
    missing := AuthRequired(null);
  }
}

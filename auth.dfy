/** The authentication controllers of server/src/controllers/auth.js: registration and
    login write the users table and the session, logout empties the session, and `getMe`
    reports it. bcrypt is a parameter: `hash` is the digest function, and a password
    matches a stored digest when hashing it gives that digest. */
module Auth {
  import opened Values
  import opened Http
  import opened Store
  import opened AuthGate

  const MissingCredentials := "Missing username or password"
  const UsernameExists := "Username already exists"
  const InvalidCredentials := "Invalid username or password"
  const LoggedOut := "Logged out successfully"

  datatype UserInfo = UserInfo(id: UserId, username: string)

  /** `bcrypt.compare(password, digest)`. */
  predicate Compare(hash: string -> string, password: string, digest: string) {
    hash(password) == digest
  }

  /** The hash of a password always matches it. */
  lemma CompareOwnHash(hash: string -> string, password: string)
    ensures Compare(hash, password, hash(password))
  {
  }

  predicate HasUsername(users: map<UserId, User>, name: string) {
    exists id :: id in users && users[id].username == name
  }

  /** The rows of `SELECT ... FROM users WHERE username = $1`. */
  function UsernameRows(users: map<UserId, User>, name: string): set<UserId> {
    set id | id in users && users[id].username == name
  }

  /** The lookup returns no row exactly when no user has that name. */
  lemma NoRowsIffNoUser(users: map<UserId, User>, name: string)
    ensures |UsernameRows(users, name)| == 0 <==> !HasUsername(users, name)
  {
    var rows := UsernameRows(users, name);
    if HasUsername(users, name) {
      var id :| id in users && users[id].username == name;
      assert id in rows;
    } else {
      assert forall id :: id !in rows;
      assert rows == {};
    }
  }

  /** With unique usernames the lookup returns at most one row, the one `result.rows[0]`
      of login reads: exactly one when the name is taken. */
  lemma OneRowPerUsername(users: map<UserId, User>, name: string)
    requires UniqueUsernames(users)
    ensures |UsernameRows(users, name)| == if HasUsername(users, name) then 1 else 0
  {
    var rows := UsernameRows(users, name);
    NoRowsIffNoUser(users, name);
    if HasUsername(users, name) {
      var id :| id in users && users[id].username == name;
      assert forall other :: other in rows ==> other == id;
      assert rows == {id};
    }
  }

  method Register(db: Database, session: Session, username: JsValue, password: JsValue, hash: string -> string)
    returns (r: Reply<UserInfo>)
    requires db.Valid()
    modifies db, session
    ensures db.Valid()
    ensures db.lists == old(db.lists) && db.access == old(db.access) && db.requests == old(db.requests) && db.todos == old(db.todos)
    ensures !Truthy(username) || !Truthy(password) ==>
      r == Failure(BadRequest, MissingCredentials, NoDetail)
    ensures Truthy(username) && Truthy(password) && HasUsername(old(db.users), username.s) ==>
      r == Failure(Conflict, UsernameExists, NoDetail)
    ensures r.Failure? ==> unchanged(db) && unchanged(session)
    ensures r.Success? <==> Truthy(username) && Truthy(password) && !HasUsername(old(db.users), username.s)
    ensures r.Success? ==> r.status == Created && r.value.username == username.s && r.value.id !in old(db.users)
    ensures r.Success? ==> db.users == old(db.users)[r.value.id := User(username.s, hash(password.s))]
    ensures r.Success? ==> session.userId == Some(r.value.id) && session.username == Some(username.s)
    ensures r.Success? ==> AuthRequired(session) == Next
  {
    if !Truthy(username) || !Truthy(password) {
      return Failure(BadRequest, MissingCredentials, NoDetail);
    }
    // SELECT id FROM users WHERE username = $1
    var existingUser := UsernameRows(db.users, username.s);
    NoRowsIffNoUser(db.users, username.s);
    if |existingUser| > 0 {
      return Failure(Conflict, UsernameExists, NoDetail);
    }
    var passwordHash := hash(password.s);
    // INSERT INTO users (username, password_hash) RETURNING id, username
    var id := db.nextUserId;
    db.nextUserId := db.nextUserId + 1;
    db.users := db.users[id := User(username.s, passwordHash)];
    // session.regenerate, then record the new user in it
    session.userId := Some(id);
    session.username := Some(username.s);
    r := Success(Created, UserInfo(id, username.s));
  }

  method Login(db: Database, session: Session, username: JsValue, password: JsValue, hash: string -> string)
    returns (r: Reply<UserInfo>)
    requires db.Valid()
    modifies session
    ensures !Truthy(username) || !Truthy(password) ==>
      r == Failure(BadRequest, MissingCredentials, NoDetail)
    ensures Truthy(username) && Truthy(password) && !HasUsername(db.users, username.s) ==>
      r == Failure(Unauthorized, InvalidCredentials, NoDetail)
    ensures Truthy(username) && Truthy(password) ==>
      forall id :: (id in db.users && db.users[id].username == username.s && !Compare(hash, password.s, db.users[id].passwordHash))
        ==> r == Failure(Unauthorized, InvalidCredentials, NoDetail)
    ensures r.Failure? ==> unchanged(session)
    ensures r.Success? <==> (&& Truthy(username) && Truthy(password)
                             && exists id :: id in db.users && db.users[id].username == username.s
                                             && Compare(hash, password.s, db.users[id].passwordHash))
    ensures r.Success? ==> r.status == Ok && r.value.id in db.users && db.users[r.value.id].username == username.s
    ensures r.Success? ==> r.value.username == username.s
    ensures r.Success? ==> UsernameRows(db.users, username.s) == {r.value.id}
    ensures r.Success? ==> session.userId == Some(r.value.id) && session.username == Some(username.s)
    ensures r.Success? ==> AuthRequired(session) == Next
  {
    if !Truthy(username) || !Truthy(password) {
      return Failure(BadRequest, MissingCredentials, NoDetail);
    }
    // SELECT id, password_hash, username FROM users WHERE username = $1
    var result := UsernameRows(db.users, username.s);
    NoRowsIffNoUser(db.users, username.s);
    if |result| == 0 {
      return Failure(Unauthorized, InvalidCredentials, NoDetail);
    }
    var userId :| userId in db.users && db.users[userId].username == username.s;
    assert forall other :: other in result ==> other == userId;
    assert result == {userId};
    var user := db.users[userId];
    var matches := Compare(hash, password.s, user.passwordHash);
    if !matches {
      return Failure(Unauthorized, InvalidCredentials, NoDetail);
    }
    // session.regenerate, then record the user in it
    session.userId := Some(userId);
    session.username := Some(username.s);
    r := Success(Ok, UserInfo(userId, username.s));
  }

  /** logout: the session is destroyed, so the gate rejects the next request. */
  method Logout(session: Session) returns (r: Reply<string>)
    modifies session
    ensures session.userId == None && session.username == None
    ensures AuthRequired(session) == Deny(UnauthorizedError)
    ensures r == Success(Ok, LoggedOut)
  {
    session.userId, session.username := None, None;
    r := Success(Ok, LoggedOut);
  }

  datatype Me = Me(id: Option<int>, username: Option<string>)

  /** getMe: the session's user id and name; behind the gate the id is always present
      and non-zero. */
  function GetMe(session: Session): (r: Me)
    reads session
    ensures r.id == session.userId && r.username == session.username
    ensures AuthRequired(session) == Next ==> r.id.Some? && r.id.value != 0
  {
    Me(session.userId, session.username)
  }

  /** A user who has just registered can log in with the same credentials from another
      session, is given the same id, and `getMe` then reports them. */
  method RegisterThenLogin(db: Database, session: Session, name: string, password: string, hash: string -> string)
    returns (registered: Reply<UserInfo>, loggedIn: Reply<UserInfo>, me: Me)
    requires db.Valid()
    requires name != "" && password != "" && !HasUsername(db.users, name)
    modifies db, session
    ensures db.Valid()
    ensures registered.Success? && registered.status == Created && registered.value.username == name
    ensures loggedIn.Success? && loggedIn.status == Ok && loggedIn.value == registered.value
    ensures me == Me(Some(registered.value.id), Some(name))
  {
    registered := Register(db, session, Str(name), Str(password), hash);
    var other := new Session();
    assert registered.value.id in db.users && db.users[registered.value.id].username == name;
    loggedIn := Login(db, other, Str(name), Str(password), hash);
    assert loggedIn.value.id == registered.value.id;
    me := GetMe(other);
  }
}

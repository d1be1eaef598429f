/**
 * The account endpoints of backend/app/user/controllers.py over an abstract user
 * table and the signed session cookie: who may sign up, log in and read which
 * profile, and when the table or the session changes.
 *
 * A request body is the JSON value `request.get_json()` returns (`JNull` when
 * there is none). The table keeps users in primary-key order, and
 * `filter_by(...).first()` is the first user whose column equals the value.
 * Password hashing and checking are the `Bcrypt` pair passed in, and whether a
 * commit fails on a database constraint is the `commitFails` flag.
 */
module UserControllers {
  import opened Wrappers
  import opened PyJson

  /** A row of the `User` table. Signup fills `username`, `email` and `password`;
    * `create_user` fills `name` and `email`; the rest stay `JNull`. */
  datatype User = User(id: nat, name: Json, username: Json, email: Json, password: Json)

  /** The table, the next primary key, and the session. */
  datatype Db = Db(users: seq<User>, nextId: nat, session: map<string, int>)

  /** A Flask response; `Crashed` is an uncaught exception (a 500 page), and the
    * body of a 404 from `get_or_404` is not JSON (`JNull`). */
  datatype Response = Response(status: int, body: Json) | Crashed(exc: Exc)

  /** `bcrypt.generate_password_hash` and `bcrypt.check_password_hash`. */
  datatype Bcrypt = Bcrypt(hash: string -> string, check: (string, string) -> bool)

  /** A hash always checks against the password it was made from. */
  ghost predicate Sound(b: Bcrypt) {
    forall p :: b.check(b.hash(p), p)
  }

  const UserIdKey := "user_id"

  /** Primary keys increase along the table and stay below `nextId`. */
  ghost predicate Valid(db: Db) {
    && (forall i :: 0 <= i < |db.users| ==> db.users[i].id < db.nextId)
    && (forall i, j :: 0 <= i < j < |db.users| ==> db.users[i].id < db.users[j].id)
  }

  function ErrorBody(message: string): Json {
    JObj([("error", JStr(message))])
  }

  function IdJson(id: nat): Json {
    JNum(id as real)
  }

  datatype Column = UsernameColumn | EmailColumn

  function ColumnOf(u: User, c: Column): Json {
    match c
    case UsernameColumn => u.username
    case EmailColumn => u.email
  }

  /** `User.query.filter_by(column=v).first()`. */
  function FindBy(users: seq<User>, c: Column, v: Json): (r: Option<User>)
    ensures r.Some? <==> exists i :: 0 <= i < |users| && ColumnOf(users[i], c) == v
    ensures r.Some? ==> exists i :: 0 <= i < |users| && users[i] == r.value && ColumnOf(r.value, c) == v
    decreases |users|
  {
    if users == [] then None
    else if ColumnOf(users[0], c) == v then Some(users[0])
    else
      var r := FindBy(users[1..], c, v);
      assert forall i :: 0 < i < |users| ==> users[i] == users[1..][i - 1];
      r
  }

  /** `User.query.get(id)`. */
  function FindById(users: seq<User>, id: int): (r: Option<User>)
    ensures r.Some? <==> exists i :: 0 <= i < |users| && users[i].id == id
    ensures r.Some? ==> r.value.id == id && exists i :: 0 <= i < |users| && users[i] == r.value
    decreases |users|
  {
    if users == [] then None
    else if users[0].id == id then Some(users[0])
    else
      var r := FindById(users[1..], id);
      assert forall i :: 0 < i < |users| ==> users[i] == users[1..][i - 1];
      r
  }

  // ---------------------------------------------------------------------------
  // The handlers, as functions of the state
  // ---------------------------------------------------------------------------

  /** `POST /signup`. */
  function SignupResult(db: Db, body: Json, bcrypt: Bcrypt, commitFails: bool): (Db, Response) {
    // `data.get` exists only on a dict.
    if !body.JObj? then (db, Crashed(AttributeError))
    else
      var username := Field(body, "username");
      var email := Field(body, "email");
      var password := Field(body, "password");
      if !Truthy(username) || !Truthy(password) then (db, Response(400, ErrorBody("username and password required")))
      else if FindBy(db.users, UsernameColumn, username).Some? then (db, Response(409, ErrorBody("username taken")))
      else if FindBy(db.users, EmailColumn, email).Some? then (db, Response(409, ErrorBody("email taken")))
      // bcrypt hashes only strings.
      else if !password.JStr? then (db, Crashed(TypeError))
      // `IntegrityError`: rolled back.
      else if commitFails then (db, Response(500, ErrorBody("database error")))
      else
        var user := User(db.nextId, JNull, username, email, JStr(bcrypt.hash(password.s)));
        (db.(users := db.users + [user], nextId := db.nextId + 1),
         Response(201, JObj([("msg", JStr("signup succesful")),
                             ("user", JObj([("id", IdJson(user.id)), ("username", username)]))])))
  }

  /** `POST /login`. */
  function LoginResult(db: Db, body: Json, bcrypt: Bcrypt): (Db, Response) {
    if !body.JObj? then (db, Crashed(AttributeError))
    else
      var username := Field(body, "username");
      var password := Field(body, "password");
      if !Truthy(username) || !Truthy(password) then (db, Response(400, ErrorBody("username and password required")))
      else
        match FindBy(db.users, UsernameColumn, username)
        case None => (db, Response(401, ErrorBody("invalid username or password")))
        case Some(user) =>
          if !user.password.JStr? || !password.JStr? then (db, Crashed(TypeError))
          else if !bcrypt.check(user.password.s, password.s) then (db, Response(401, ErrorBody("invalid username or password")))
          else
            (db.(session := db.session[UserIdKey := user.id]),
             Response(200, JObj([("message", JStr("Login successful")),
                                 ("user", JObj([("id", IdJson(user.id)), ("username", user.username)]))])))
  }

  /** `POST /logout`. */
  function LogoutResult(db: Db): (Db, Response) {
    (db.(session := map[]), Response(200, JObj([("msg", JStr("Successfully logged out"))])))
  }

  /** `GET /profile/<user_id>`; `toDict` is the model's `to_dict`. */
  function Profile(db: Db, userId: nat, toDict: User -> Json): Response {
    if UserIdKey !in db.session then Response(401, ErrorBody("Unauthorized"))
    else if db.session[UserIdKey] != userId then Response(403, ErrorBody("Forbidden"))
    else
      match FindById(db.users, userId)
      case None => Response(404, ErrorBody("User not found"))
      case Some(user) => Response(200, JObj([("user", toDict(user))]))
  }

  /** `GET /users/me`; a session naming a user that no longer exists reads `.id`
    * of `None`. */
  function CurrentUser(db: Db): Response {
    if UserIdKey !in db.session || db.session[UserIdKey] == 0 then Response(401, JObj([("msg", JStr("unauthenticated"))]))
    else
      match FindById(db.users, db.session[UserIdKey])
      case None => Crashed(AttributeError)
      case Some(user) =>
        Response(200, JObj([("id", IdJson(user.id)), ("username", user.username), ("email", user.email)]))
  }

  /** `{"id": ..., "name": ..., "email": ...}`. */
  function Summary(user: User): Json {
    JObj([("id", IdJson(user.id)), ("name", user.name), ("email", user.email)])
  }

  /** `POST /`: no guard, so a missing key or a failed commit is a 500 page. */
  function CreateUserResult(db: Db, body: Json, commitFails: bool): (Db, Response) {
    // `data["name"]` on a value that is not a dict.
    if !body.JObj? then (db, Crashed(TypeError))
    else if !Binds(body.fields, "name") || !Binds(body.fields, "email") then (db, Crashed(KeyError))
    else if commitFails then (db, Crashed(IntegrityError))
    else
      var user := User(db.nextId, Field(body, "name"), JNull, Field(body, "email"), JNull);
      (db.(users := db.users + [user], nextId := db.nextId + 1), Response(201, Summary(user)))
  }

  /** `GET /`: every user, in table order. */
  function GetUsers(db: Db): (r: Response)
    ensures r.Response? && r.status == 200 && r.body.JArr?
    ensures |r.body.items| == |db.users|
    ensures forall i :: 0 <= i < |db.users| ==> r.body.items[i] == Summary(db.users[i])
  {
    Response(200, JArr(seq(|db.users|, i requires 0 <= i < |db.users| => Summary(db.users[i]))))
  }

  /** `GET /<user_id>`. */
  function GetUser(db: Db, userId: nat): (r: Response)
    ensures r.Response? && (r.status == 200 || r.status == 404)
    ensures r.status == 200 <==> exists i :: 0 <= i < |db.users| && db.users[i].id == userId
    ensures r.status == 200 ==> exists i :: 0 <= i < |db.users| && db.users[i].id == userId && r.body == Summary(db.users[i])
  {
    match FindById(db.users, userId)
    case None => Response(404, JNull)
    case Some(user) => Response(200, Summary(user))
  }

  // ---------------------------------------------------------------------------
  // Properties
  // ---------------------------------------------------------------------------

  /** A missing or empty username or password is a 400 before anything else is
    * looked at, and the table is left alone. */
  lemma SignupRequiresCredentials(db: Db, body: Json, bcrypt: Bcrypt, commitFails: bool)
    requires body.JObj? && (!Truthy(Field(body, "username")) || !Truthy(Field(body, "password")))
    ensures SignupResult(db, body, bcrypt, commitFails) == (db, Response(400, ErrorBody("username and password required")))
  {
  }

  /** A taken username is reported before a taken email, and a refused signup,
    * whatever the reason, leaves the table as it was. */
  lemma SignupConflicts(db: Db, body: Json, bcrypt: Bcrypt, commitFails: bool, k: nat)
    requires body.JObj? && Truthy(Field(body, "username")) && Truthy(Field(body, "password"))
    requires k < |db.users|
    ensures db.users[k].username == Field(body, "username") ==>
              SignupResult(db, body, bcrypt, commitFails) == (db, Response(409, ErrorBody("username taken")))
    ensures db.users[k].email == Field(body, "email") && FindBy(db.users, UsernameColumn, Field(body, "username")).None? ==>
              SignupResult(db, body, bcrypt, commitFails) == (db, Response(409, ErrorBody("email taken")))
  {
  }

  /** A signup succeeds exactly when the credentials are present, neither the
    * username nor the email is taken, the password is a string and the commit goes
    * through; it then appends one user holding the password's hash, not the
    * password, and touches nothing else. */
  lemma SignupSuccess(db: Db, body: Json, bcrypt: Bcrypt, commitFails: bool)
    ensures var (db', r) := SignupResult(db, body, bcrypt, commitFails);
            (r.Response? && r.status == 201) <==>
              && body.JObj?
              && Truthy(Field(body, "username")) && Field(body, "password").JStr? && Field(body, "password").s != ""
              && (forall i :: 0 <= i < |db.users| ==> db.users[i].username != Field(body, "username"))
              && (forall i :: 0 <= i < |db.users| ==> db.users[i].email != Field(body, "email"))
              && !commitFails
    ensures var (db', r) := SignupResult(db, body, bcrypt, commitFails);
            r.Response? && r.status == 201 ==>
              && db'.users == db.users + [User(db.nextId, JNull, Field(body, "username"), Field(body, "email"),
                                               JStr(bcrypt.hash(Field(body, "password").s)))]
              && db'.session == db.session && db'.nextId == db.nextId + 1
    ensures var (db', r) := SignupResult(db, body, bcrypt, commitFails);
            !(r.Response? && r.status == 201) ==> db' == db
  {
    if body.JObj? && Field(body, "password").JStr? && Field(body, "password").s != "" {
      assert Truthy(Field(body, "password"));
    }
  }

  /** A failed commit is a 500 with the table rolled back. */
  lemma SignupRollsBack(db: Db, body: Json, bcrypt: Bcrypt)
    requires SignupResult(db, body, bcrypt, false).1.Response? && SignupResult(db, body, bcrypt, false).1.status == 201
    ensures SignupResult(db, body, bcrypt, true) == (db, Response(500, ErrorBody("database error")))
  {
  }

  /** Login never changes the table; it sets `session["user_id"]` only on success,
    * to the id of the first user with that username, and leaves every other key of
    * the session alone. */
  lemma LoginEffect(db: Db, body: Json, bcrypt: Bcrypt)
    ensures var (db', r) := LoginResult(db, body, bcrypt);
            db'.users == db.users && db'.nextId == db.nextId
    ensures var (db', r) := LoginResult(db, body, bcrypt);
            !(r.Response? && r.status == 200) ==> db' == db
    ensures var (db', r) := LoginResult(db, body, bcrypt);
            r.Response? && r.status == 200 ==>
              && body.JObj?
              && FindBy(db.users, UsernameColumn, Field(body, "username")).Some?
              && db'.session == db.session[UserIdKey := FindBy(db.users, UsernameColumn, Field(body, "username")).value.id]
  {
  }

  /** An unknown username or a password that does not check is a 401. */
  lemma LoginRejects(db: Db, body: Json, bcrypt: Bcrypt)
    requires body.JObj? && Truthy(Field(body, "username")) && Truthy(Field(body, "password"))
    requires var u := FindBy(db.users, UsernameColumn, Field(body, "username"));
             u.None? || (u.value.password.JStr? && Field(body, "password").JStr? &&
                         !bcrypt.check(u.value.password.s, Field(body, "password").s))
    ensures LoginResult(db, body, bcrypt) == (db, Response(401, ErrorBody("invalid username or password")))
  {
  }

  /** For a known username whose stored hash and given password are strings,
    * login succeeds exactly when the hash checks; it then records the user's id
    * in the session and answers with the id and username. */
  lemma LoginSucceeds(db: Db, body: Json, bcrypt: Bcrypt)
    requires body.JObj? && Truthy(Field(body, "username")) && Truthy(Field(body, "password"))
    requires var u := FindBy(db.users, UsernameColumn, Field(body, "username"));
             u.Some? && u.value.password.JStr? && Field(body, "password").JStr?
    ensures var user := FindBy(db.users, UsernameColumn, Field(body, "username")).value;
            var (db', r) := LoginResult(db, body, bcrypt);
            && ((r.Response? && r.status == 200) <==> bcrypt.check(user.password.s, Field(body, "password").s))
            && (bcrypt.check(user.password.s, Field(body, "password").s) ==>
                  && db' == db.(session := db.session[UserIdKey := user.id])
                  && r.body == JObj([("message", JStr("Login successful")),
                                     ("user", JObj([("id", IdJson(user.id)), ("username", user.username)]))]))
  {
  }

  /** Logout empties the whole session and keeps the table; afterwards every
    * profile request is a 401. */
  lemma LogoutClears(db: Db, userId: nat, toDict: User -> Json)
    ensures LogoutResult(db).0.session == map[] && LogoutResult(db).0.users == db.users
    ensures Profile(LogoutResult(db).0, userId, toDict).status == 401
    ensures CurrentUser(LogoutResult(db).0).Response? && CurrentUser(LogoutResult(db).0).status == 401
  {
  }

  /** `profile` answers 401, then 403, then 404, in that order, and 200 exactly
    * when the session's user is the requested one and exists. */
  lemma ProfileOrder(db: Db, userId: nat, toDict: User -> Json)
    ensures var r := Profile(db, userId, toDict);
            && r.Response?
            && (r.status == 401 <==> UserIdKey !in db.session)
            && (r.status == 403 <==> UserIdKey in db.session && db.session[UserIdKey] != userId)
            && (r.status == 404 <==>
                  UserIdKey in db.session && db.session[UserIdKey] == userId &&
                  forall i :: 0 <= i < |db.users| ==> db.users[i].id != userId)
            && (r.status == 200 <==>
                  UserIdKey in db.session && db.session[UserIdKey] == userId &&
                  exists i :: 0 <= i < |db.users| && db.users[i].id == userId)
  {
  }

  /** `/users/me` is a 401 exactly when the session has no (non-zero) user id. */
  lemma CurrentUserUnauthenticated(db: Db)
    ensures CurrentUser(db) == Response(401, JObj([("msg", JStr("unauthenticated"))])) <==>
              UserIdKey !in db.session || db.session[UserIdKey] == 0
  {
  }

  /** `create_user` appends exactly one user and echoes it with 201; `get_users`
    * then lists it last. */
  lemma CreateUserAppends(db: Db, body: Json)
    requires body.JObj? && Binds(body.fields, "name") && Binds(body.fields, "email")
    ensures var (db', r) := CreateUserResult(db, body, false);
            var user := User(db.nextId, Field(body, "name"), JNull, Field(body, "email"), JNull);
            && db'.users == db.users + [user]
            && r == Response(201, Summary(user))
            && GetUsers(db').body.items == GetUsers(db).body.items + [Summary(user)]
  {
  }

  /** Each handler keeps primary keys increasing and below `nextId`: signup. */
  lemma SignupKeepsValid(db: Db, body: Json, bcrypt: Bcrypt, commitFails: bool)
    requires Valid(db)
    ensures Valid(SignupResult(db, body, bcrypt, commitFails).0)
  {
    var s := SignupResult(db, body, bcrypt, commitFails).0;
    if s != db {
      var user := User(db.nextId, JNull, Field(body, "username"), Field(body, "email"),
                       JStr(bcrypt.hash(Field(body, "password").s)));
      assert s == db.(users := db.users + [user], nextId := db.nextId + 1);
      AppendKeepsValid(db, user);
    }
  }

  /** Login only writes the session. */
  lemma LoginKeepsValid(db: Db, body: Json, bcrypt: Bcrypt)
    requires Valid(db)
    ensures Valid(LoginResult(db, body, bcrypt).0)
  {
    var l := LoginResult(db, body, bcrypt).0;
    assert l.users == db.users && l.nextId == db.nextId;
  }

  /** Logout only clears the session. */
  lemma LogoutKeepsValid(db: Db)
    requires Valid(db)
    ensures Valid(LogoutResult(db).0)
  {
    var l := LogoutResult(db).0;
    assert l.users == db.users && l.nextId == db.nextId;
  }

  lemma CreateUserKeepsValid(db: Db, body: Json, commitFails: bool)
    requires Valid(db)
    ensures Valid(CreateUserResult(db, body, commitFails).0)
  {
    var c := CreateUserResult(db, body, commitFails).0;
    if c != db {
      var user := User(db.nextId, Field(body, "name"), JNull, Field(body, "email"), JNull);
      assert c == db.(users := db.users + [user], nextId := db.nextId + 1);
      AppendKeepsValid(db, user);
    }
  }

  lemma AppendKeepsValid(db: Db, user: User)
    requires Valid(db) && user.id == db.nextId
    ensures Valid(db.(users := db.users + [user], nextId := db.nextId + 1))
  {
  }

  /** With a sound hash, a fresh signup followed by a login with the same password
    * logs the new user in, after which its profile is readable and, unless the new
    * id is 0 (which `/users/me` reads as logged out), `/users/me` names it. */
  lemma SignupThenLogin(db: Db, body: Json, bcrypt: Bcrypt, toDict: User -> Json)
    requires Valid(db) && Sound(bcrypt)
    requires SignupResult(db, body, bcrypt, false).1.Response? && SignupResult(db, body, bcrypt, false).1.status == 201
    ensures var db1 := SignupResult(db, body, bcrypt, false).0;
            var (db2, r) := LoginResult(db1, body, bcrypt);
            && r.Response? && r.status == 200
            && db2.session[UserIdKey] == db.nextId
            && Profile(db2, db.nextId, toDict).status == 200
            && (db.nextId > 0 ==>
                  CurrentUser(db2) == Response(200, JObj([("id", IdJson(db.nextId)), ("username", Field(body, "username")),
                                                          ("email", Field(body, "email"))])))
  {
    var db1 := SignupResult(db, body, bcrypt, false).0;
    var username := Field(body, "username");
    var user := db1.users[|db.users|];
    assert FindBy(db.users, UsernameColumn, username).None?;
    FindByAppend(db.users, user, UsernameColumn, username);
    assert bcrypt.check(bcrypt.hash(Field(body, "password").s), Field(body, "password").s);
    assert db1.users[|db.users|].id == db.nextId;
    FindByIdAppended(db.users, user);
  }

  /** A user appended with an id above every earlier id is the one `query.get` finds. */
  lemma FindByIdAppended(users: seq<User>, user: User)
    requires forall i :: 0 <= i < |users| ==> users[i].id < user.id
    ensures FindById(users + [user], user.id) == Some(user)
  {
    var all := users + [user];
    var found := FindById(all, user.id);
    assert all[|users|] == user;
    var k :| 0 <= k < |all| && all[k] == found.value;
    assert k == |users|;
  }

  /** Appending a user to a table without a match makes that user the first match. */
  lemma {:induction false} FindByAppend(users: seq<User>, user: User, c: Column, v: Json)
    requires FindBy(users, c, v).None? && ColumnOf(user, c) == v
    ensures FindBy(users + [user], c, v) == Some(user)
    decreases |users|
  {
    if users != [] {
      assert (users + [user])[1..] == users[1..] + [user];
      FindByAppend(users[1..], user, c, v);
    } else {
      assert users + [user] == [user];
    }
  }

  // ---------------------------------------------------------------------------
  // The blueprint over a live table and session
  // ---------------------------------------------------------------------------

  /** The user table and the session a request sees, updated in place. */
  class UserApp {
    var users: seq<User>
    var nextId: nat
    var session: map<string, int>

    function State(): Db
      reads this
    {
      Db(users, nextId, session)
    }

    constructor ()
      ensures State() == Db([], 1, map[]) && Valid(State())
    {
      users := [];
      nextId := 1;
      session := map[];
    }

    method Signup(body: Json, bcrypt: Bcrypt, commitFails: bool) returns (r: Response)
      modifies this
      ensures (State(), r) == SignupResult(old(State()), body, bcrypt, commitFails)
    {
      if !body.JObj? {
        return Crashed(AttributeError);
      }
      var username := Field(body, "username");
      var email := Field(body, "email");
      var password := Field(body, "password");
      if !Truthy(username) || !Truthy(password) {
        return Response(400, ErrorBody("username and password required"));
      }
      if FindBy(users, UsernameColumn, username).Some? {
        return Response(409, ErrorBody("username taken"));
      }
      if FindBy(users, EmailColumn, email).Some? {
        return Response(409, ErrorBody("email taken"));
      }
      if !password.JStr? {
        return Crashed(TypeError);
      }
      var newUser := User(nextId, JNull, username, email, JStr(bcrypt.hash(password.s)));
      if commitFails {
        return Response(500, ErrorBody("database error"));
      }
      users := users + [newUser];
      nextId := nextId + 1;
      r := Response(201, JObj([("msg", JStr("signup succesful")),
                               ("user", JObj([("id", IdJson(newUser.id)), ("username", username)]))]));
    }

    method Login(body: Json, bcrypt: Bcrypt) returns (r: Response)
      modifies this
      ensures (State(), r) == LoginResult(old(State()), body, bcrypt)
    {
      if !body.JObj? {
        return Crashed(AttributeError);
      }
      var username := Field(body, "username");
      var password := Field(body, "password");
      if !Truthy(username) || !Truthy(password) {
        return Response(400, ErrorBody("username and password required"));
      }
      var found := FindBy(users, UsernameColumn, username);
      if found.None? {
        return Response(401, ErrorBody("invalid username or password"));
      }
      var user := found.value;
      if !user.password.JStr? || !password.JStr? {
        return Crashed(TypeError);
      }
      if !bcrypt.check(user.password.s, password.s) {
        return Response(401, ErrorBody("invalid username or password"));
      }
      session := session[UserIdKey := user.id];
      r := Response(200, JObj([("message", JStr("Login successful")),
                               ("user", JObj([("id", IdJson(user.id)), ("username", user.username)]))]));
    }

    method Logout() returns (r: Response)
      modifies this
      ensures (State(), r) == LogoutResult(old(State()))
    {
      session := map[];
      r := Response(200, JObj([("msg", JStr("Successfully logged out"))]));
    }

    method CreateUser(body: Json, commitFails: bool) returns (r: Response)
      modifies this
      ensures (State(), r) == CreateUserResult(old(State()), body, commitFails)
    {
      if !body.JObj? {
        return Crashed(TypeError);
      }
      if !Binds(body.fields, "name") || !Binds(body.fields, "email") {
        return Crashed(KeyError);
      }
      var user := User(nextId, Field(body, "name"), JNull, Field(body, "email"), JNull);
      if commitFails {
        return Crashed(IntegrityError);
      }
      users := users + [user];
      nextId := nextId + 1;
      r := Response(201, Summary(user));
    }
  }
}

/** Registration, login, profile and logout (src/controllers/authController.ts)
    over the users collection (src/models/User.ts). The collection is a
    sequence of records in insertion order, and both `findOne({email})` and
    `findById` return the first record that matches. */
module AuthController {
  import opened Common
  import opened Models
  import opened Library
  import opened Http

  const USERNAME_REQUIRED: string := "Username is required"
  const EMAIL_INVALID: string := "Please include a valid email"
  const PASSWORD_SHORT: string := "Please enter a password with 6 or more characters"
  const PASSWORD_REQUIRED: string := "Password is required"
  const MIN_PASSWORD: nat := 6

  const USER_EXISTS: string := "User already exists"
  const INVALID_CREDENTIALS: string := "Invalid Credentials"
  const NOT_AUTHENTICATED: string := "User not authenticated or token is malformed."
  const USER_NOT_FOUND: string := "User not found"
  const LOGGED_OUT: string := "Logged out successfully. Token invalidated (if blacklisting is implemented)."
  const REGISTER_FAILED: string := "Server error during registration"
  const PROFILE_FAILED: string := "Server error fetching profile"

  // ------------------------------------------------------------ the collection

  /** The unique index on `email`, and unique `_id`s. */
  predicate UsersValid(users: seq<UserRecord>)
    ensures UsersValid(users) ==> forall i, j :: 0 <= i < |users| && 0 <= j < |users| && i != j ==>
              users[i].email != users[j].email && users[i].id != users[j].id
  {
    forall i, j :: 0 <= i < j < |users| ==> users[i].email != users[j].email && users[i].id != users[j].id
  }

  /** A query on the collection: `{email}` or an `_id`. */
  datatype Key = ByEmail(email: string) | ById(id: Id)

  predicate HasKey(u: UserRecord, k: Key) {
    match k
    case ByEmail(e) => u.email == e
    case ById(id) => u.id == id
  }

  /** The position of the first record the query matches. */
  function FindUser(users: seq<UserRecord>, k: Key): (r: Option<nat>)
    ensures r.Some? ==> r.value < |users| && HasKey(users[r.value], k)
    ensures r.Some? ==> forall j :: 0 <= j < r.value ==> !HasKey(users[j], k)
    ensures r.None? <==> forall j :: 0 <= j < |users| ==> !HasKey(users[j], k)
  {
    if |users| == 0 then None
    else if HasKey(users[0], k) then Some(0)
    else match FindUser(users[1..], k)
      case None => None
      case Some(i) => assert forall j :: 1 <= j < |users| ==> users[j] == users[1..][j - 1]; Some(i + 1)
  }

  /** The result of a handler that may write to the collection. */
  datatype UsersOutcome = UsersOutcome(response: Response, users: seq<UserRecord>)

  // ------------------------------------------------------------ register

  datatype RegisterBody = RegisterBody(username: Option<string>, email: Option<string>, password: Option<string>)

  /** `registrationValidation`: a non-empty username, a valid email and a
      password of at least six characters. */
  predicate RegisterInputOk(b: RegisterBody, lib: Primitives) {
    Text(b.username) != "" && lib.isEmail(Text(b.email)) && |Text(b.password)| >= MIN_PASSWORD
  }

  /** `validationResult(req).array()`, one entry per failed check, in order. */
  function RegisterErrors(b: RegisterBody, lib: Primitives): (errs: seq<FieldError>)
    ensures errs == [] <==> RegisterInputOk(b, lib)
    ensures FieldError("username", USERNAME_REQUIRED) in errs <==> Text(b.username) == ""
    ensures FieldError("email", EMAIL_INVALID) in errs <==> !lib.isEmail(Text(b.email))
    ensures FieldError("password", PASSWORD_SHORT) in errs <==> |Text(b.password)| < MIN_PASSWORD
    ensures |errs| <= 3
  {
    (if Text(b.username) == "" then [FieldError("username", USERNAME_REQUIRED)] else [])
    + (if !lib.isEmail(Text(b.email)) then [FieldError("email", EMAIL_INVALID)] else [])
    + (if |Text(b.password)| < MIN_PASSWORD then [FieldError("password", PASSWORD_SHORT)] else [])
  }

  /** Registration reaches `user.save()` and the save succeeds: the input is
      valid, no user has the email, and the generated id is unused. */
  predicate Registers(users: seq<UserRecord>, b: RegisterBody, newId: Id, lib: Primitives) {
    RegisterInputOk(b, lib)
    && FindUser(users, ByEmail(Text(b.email))).None?
    && FindUser(users, ById(newId)).None?
  }

  /** `registerUser`. `newId` is the id Mongoose generates, `salt` the
      result of `bcrypt.genSalt(10)` and `now` the time of the save, which
      becomes `createdAt`. */
  function RegisterOutcome(users: seq<UserRecord>, b: RegisterBody, newId: Id, salt: string, now: int,
                           lib: Primitives): (o: UsersOutcome)
    ensures !RegisterInputOk(b, lib) ==> o == UsersOutcome(Response(400, Errors(RegisterErrors(b, lib))), users)
    ensures RegisterInputOk(b, lib) && FindUser(users, ByEmail(Text(b.email))).Some? ==>
              o == UsersOutcome(Response(400, Msg(USER_EXISTS)), users)
    ensures RegisterInputOk(b, lib) && FindUser(users, ByEmail(Text(b.email))).None?
            && FindUser(users, ById(newId)).Some? ==>
              o == UsersOutcome(Response(500, Plain(REGISTER_FAILED)), users)
    ensures Registers(users, b, newId, lib) ==>
              o.users == users + [UserRecord(newId, b.username.value, Text(b.email),
                                             lib.hash(b.password.value, salt), DEFAULT_ROLE, now, 0)]
              && o.response == Response(201, TokenJson(lib.sign(Claims(newId, DEFAULT_ROLE))))
    ensures !Registers(users, b, newId, lib) ==> o.users == users
    ensures UsersValid(users) ==> UsersValid(o.users)
  {
    if !RegisterInputOk(b, lib) then UsersOutcome(Response(400, Errors(RegisterErrors(b, lib))), users)
    else if FindUser(users, ByEmail(Text(b.email))).Some? then UsersOutcome(Response(400, Msg(USER_EXISTS)), users)
    else if FindUser(users, ById(newId)).Some? then UsersOutcome(Response(500, Plain(REGISTER_FAILED)), users)
    else
      var u := UserRecord(newId, b.username.value, Text(b.email), lib.hash(b.password.value, salt), DEFAULT_ROLE, now, 0);
      var users' := users + [u];
      assert UsersValid(users) ==> UsersValid(users') by {
        if UsersValid(users) {
          forall i, j | 0 <= i < j < |users'|
            ensures users'[i].email != users'[j].email && users'[i].id != users'[j].id
          {
            if j == |users| {
              assert !HasKey(users[i], ByEmail(u.email)) && !HasKey(users[i], ById(newId));
            }
          }
        }
      }
      UsersOutcome(Response(201, TokenJson(lib.sign(Claims(u.id, u.role)))), users')
  }

  // ------------------------------------------------------------ login

  datatype LoginBody = LoginBody(email: Option<string>, password: Option<string>)

  /** `loginValidation`: a valid email, and a password that is present. */
  predicate LoginInputOk(b: LoginBody, lib: Primitives) {
    lib.isEmail(Text(b.email)) && b.password.Some?
  }

  function LoginErrors(b: LoginBody, lib: Primitives): (errs: seq<FieldError>)
    ensures errs == [] <==> LoginInputOk(b, lib)
    ensures FieldError("email", EMAIL_INVALID) in errs <==> !lib.isEmail(Text(b.email))
    ensures FieldError("password", PASSWORD_REQUIRED) in errs <==> b.password.None?
  {
    (if !lib.isEmail(Text(b.email)) then [FieldError("email", EMAIL_INVALID)] else [])
    + (if b.password.None? then [FieldError("password", PASSWORD_REQUIRED)] else [])
  }

  /** `loginUser`: an unknown email and a wrong password are answered alike;
      a match is answered with a token for the stored id and role. */
  function LoginOutcome(users: seq<UserRecord>, b: LoginBody, lib: Primitives): (r: Response)
    ensures !LoginInputOk(b, lib) ==> r == Response(400, Errors(LoginErrors(b, lib)))
    ensures LoginInputOk(b, lib) && FindUser(users, ByEmail(Text(b.email))).None? ==>
              r == Response(400, Msg(INVALID_CREDENTIALS))
    ensures r.status == 200 <==>
              LoginInputOk(b, lib) && FindUser(users, ByEmail(Text(b.email))).Some?
              && lib.compare(b.password.value, users[FindUser(users, ByEmail(Text(b.email))).value].password)
    ensures r.status == 200 ==>
              var u := users[FindUser(users, ByEmail(Text(b.email))).value];
              r == Response(200, TokenJson(lib.sign(Claims(u.id, u.role))))
    ensures r.status != 200 && LoginInputOk(b, lib) ==> r == Response(400, Msg(INVALID_CREDENTIALS))
  {
    if !LoginInputOk(b, lib) then Response(400, Errors(LoginErrors(b, lib)))
    else match FindUser(users, ByEmail(Text(b.email)))
      case None => Response(400, Msg(INVALID_CREDENTIALS))
      case Some(i) =>
        if !lib.compare(b.password.value, users[i].password) then Response(400, Msg(INVALID_CREDENTIALS))
        else Response(200, TokenJson(lib.sign(Claims(users[i].id, users[i].role))))
  }

  /** Registering and then logging in with the same email and password
      yields a token for the new id with the default role, provided bcrypt
      accepts a password against its own hash. */
  lemma {:induction false} RegisterThenLogin(users: seq<UserRecord>, b: RegisterBody, newId: Id, salt: string, now: int,
                                             lib: Primitives)
    requires Registers(users, b, newId, lib)
    requires lib.compare(b.password.value, lib.hash(b.password.value, salt))
    ensures LoginOutcome(RegisterOutcome(users, b, newId, salt, now, lib).users, LoginBody(b.email, b.password), lib)
            == Response(200, TokenJson(lib.sign(Claims(newId, DEFAULT_ROLE))))
  {
    var users' := RegisterOutcome(users, b, newId, salt, now, lib).users;
    var k := ByEmail(Text(b.email));
    assert HasKey(users'[|users|], k);
    assert forall j :: 0 <= j < |users| ==> users'[j] == users[j] && !HasKey(users'[j], k);
    assert FindUser(users', k) == Some(|users|);
  }

  // ------------------------------------------------------------ profile

  /** `getUserProfile`: the id in `req.user`, looked up with `findById` and
      sent without its password. An id that is not an ObjectId makes the
      cast in `findById` throw. */
  function ProfileOutcome(users: seq<UserRecord>, user: Option<Claims>, lib: Primitives): (r: Response)
    ensures user.None? || user.value.id == "" ==> r == Response(401, Msg(NOT_AUTHENTICATED))
    ensures user.Some? && user.value.id != "" && !lib.isObjectId(user.value.id) ==>
              r == Response(500, Plain(PROFILE_FAILED))
    ensures user.Some? && user.value.id != "" && lib.isObjectId(user.value.id)
            && FindUser(users, ById(user.value.id)).None? ==>
              r == Response(404, Msg(USER_NOT_FOUND))
    ensures r.status == 200 ==>
              r.body.UserJson? && "password" !in r.body.user
              && "id" in r.body.user && r.body.user["id"] == Str(user.value.id)
    ensures user.Some? && user.value.id != "" && lib.isObjectId(user.value.id)
            && FindUser(users, ById(user.value.id)).Some? ==>
              r == Response(200, UserJson(PublicObject(users[FindUser(users, ById(user.value.id)).value])))
  {
    if user.None? || user.value.id == "" then Response(401, Msg(NOT_AUTHENTICATED))
    else if !lib.isObjectId(user.value.id) then Response(500, Plain(PROFILE_FAILED))
    else match FindUser(users, ById(user.value.id))
      case None => Response(404, Msg(USER_NOT_FOUND))
      case Some(i) => Response(200, UserJson(PublicObject(users[i])))
  }

  /** The token a registration issues opens the new user's profile. */
  lemma {:induction false} RegisterThenProfile(users: seq<UserRecord>, b: RegisterBody, newId: Id, salt: string, now: int,
                                               lib: Primitives)
    requires Registers(users, b, newId, lib) && newId != "" && lib.isObjectId(newId)
    ensures var r := ProfileOutcome(RegisterOutcome(users, b, newId, salt, now, lib).users,
                                    Some(Claims(newId, DEFAULT_ROLE)), lib);
            r.status == 200 && r.body.user["username"] == Str(b.username.value)
            && r.body.user["email"] == Str(Text(b.email)) && r.body.user["role"] == Str("User")
            && r.body.user["createdAt"] == Date(now) && r.body.user[VERSION_KEY] == Num(0)
  {
    var users' := RegisterOutcome(users, b, newId, salt, now, lib).users;
    var k := ById(newId);
    assert HasKey(users'[|users|], k);
    assert forall j :: 0 <= j < |users| ==> users'[j] == users[j] && !HasKey(users'[j], k);
    assert FindUser(users', k) == Some(|users|);
  }

  // ------------------------------------------------------------ the store

  /** The users collection as the handlers use it. */
  class UserStore {
    var users: seq<UserRecord>

    ghost predicate Valid()
      reads this
    {
      UsersValid(users)
    }

    constructor ()
      ensures Valid() && users == []
    {
      users := [];
    }

    /** `registerUser`, step by step: validate, look the email up, build the
        user, overwrite its password with the hash, save, sign. */
    method RegisterUser(b: RegisterBody, newId: Id, salt: string, now: int, lib: Primitives) returns (res: Response)
      requires Valid()
      modifies this
      ensures Valid()
      ensures var o := RegisterOutcome(old(users), b, newId, salt, now, lib);
              res == o.response && users == o.users
    {
      var errors := RegisterErrors(b, lib);
      if errors != [] {
        return Response(400, Errors(errors));
      }
      var existing := FindUser(users, ByEmail(Text(b.email)));
      if existing.Some? {
        return Response(400, Msg(USER_EXISTS));
      }
      var user := UserRecord(newId, b.username.value, Text(b.email), b.password.value, DEFAULT_ROLE, now, 0);
      user := user.(password := lib.hash(b.password.value, salt));
      if FindUser(users, ById(user.id)).Some? {
        return Response(500, Plain(REGISTER_FAILED));
      }
      users := users + [user];
      var token := lib.sign(Claims(user.id, user.role));
      res := Response(201, TokenJson(token));
    }

    /** `loginUser`; it reads the collection only. */
    method LoginUser(b: LoginBody, lib: Primitives) returns (res: Response)
      ensures res == LoginOutcome(users, b, lib)
    {
      var errors := LoginErrors(b, lib);
      if errors != [] {
        return Response(400, Errors(errors));
      }
      var found := FindUser(users, ByEmail(Text(b.email)));
      if found.None? {
        return Response(400, Msg(INVALID_CREDENTIALS));
      }
      var user := users[found.value];
      var isMatch := lib.compare(b.password.value, user.password);
      if !isMatch {
        return Response(400, Msg(INVALID_CREDENTIALS));
      }
      res := Response(200, TokenJson(lib.sign(Claims(user.id, user.role))));
    }

    /** `getUserProfile`; it reads the collection only. */
    method GetUserProfile(user: Option<Claims>, lib: Primitives) returns (res: Response)
      ensures res == ProfileOutcome(users, user, lib)
    {
      if user.None? || user.value.id == "" {
        return Response(401, Msg(NOT_AUTHENTICATED));
      }
      var userId := user.value.id;
      if !lib.isObjectId(userId) {
        return Response(500, Plain(PROFILE_FAILED));
      }
      var found := FindUser(users, ById(userId));
      if found.None? {
        return Response(404, Msg(USER_NOT_FOUND));
      }
      res := Response(200, UserJson(PublicObject(users[found.value])));
    }

    /** `logoutUser`: nothing is blacklisted and nothing changes. */
    method LogoutUser() returns (res: Response)
      ensures res.status == 200 && res.body == Msg(LOGGED_OUT)
    {
      res := Response(200, Msg(LOGGED_OUT));
    }
  }
}

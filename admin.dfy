/** The admin router (src/routes/admin.ts): every route runs `auth` and then
    `authorize(['Admin'])`, and its one handler changes a user's role. */
module Admin {
  import opened Common
  import opened Models
  import opened Library
  import opened Http
  import opened Auth
  import opened Rbac
  import opened AuthController

  const ROLE_INVALID: string := "Invalid role provided"
  const USER_ID_INVALID: string := "Invalid user ID format in URL parameter"
  const ROLE_UPDATE_FAILED: string := "Server error updating user role"
  const ADMIN_ONLY: seq<Role> := [Admin]

  /** `router.use(auth)` followed by `router.use(authorize(['Admin']))`. */
  function AdminGate(header: Option<string>, lib: Primitives): (g: Gate)
    ensures g == Proceed <==> Authenticate(header, lib).Accept? && Authenticate(header, lib).claims.role == Admin
    ensures Authenticate(header, lib).Reject? ==> g == Halt(Authenticate(header, lib).response)
    ensures Authenticate(header, lib).Accept? && Authenticate(header, lib).claims.role != Admin ==>
              g == Halt(Response(403, Msg(ACCESS_DENIED)))
  {
    match Authenticate(header, lib)
    case Reject(r) => Halt(r)
    case Accept(c) => Authorize(ADMIN_ONLY, Some(c))
  }

  /** `roleUpdateValidation`: the body's role is one of the three names and
      the URL's `userId` is a Mongo id. */
  function RoleUpdateErrors(role: Option<string>, userId: string, lib: Primitives): (errs: seq<FieldError>)
    ensures errs == [] <==> Text(role) in ROLE_NAMES && lib.isMongoId(userId)
    ensures FieldError("role", ROLE_INVALID) in errs <==> Text(role) !in ROLE_NAMES
    ensures FieldError("userId", USER_ID_INVALID) in errs <==> !lib.isMongoId(userId)
  {
    (if Text(role) !in ROLE_NAMES then [FieldError("role", ROLE_INVALID)] else [])
    + (if !lib.isMongoId(userId) then [FieldError("userId", USER_ID_INVALID)] else [])
  }

  /** `Role for user <username> updated to <role>`. */
  function UpdatedMessage(username: string, role: string): (m: string)
    ensures HasPrefix(m, "Role for user " + username)
    ensures |role| <= |m| && m[|m| - |role|..] == role
    ensures |m| == |"Role for user  updated to "| + |username| + |role|
  {
    "Role for user " + username + " updated to " + role
  }

  /** The role-update route as a whole, from the `Authorization` header to
      the response. An id that is a Mongo id but not an ObjectId makes the
      cast in `findById` throw. */
  function RoleUpdateOutcome(users: seq<UserRecord>, header: Option<string>, role: Option<string>,
                             userId: string, lib: Primitives): (o: UsersOutcome)
    ensures AdminGate(header, lib).Halt? ==> o == UsersOutcome(AdminGate(header, lib).response, users)
    ensures AdminGate(header, lib) == Proceed && RoleUpdateErrors(role, userId, lib) != [] ==>
              o == UsersOutcome(Response(400, Errors(RoleUpdateErrors(role, userId, lib))), users)
    ensures AdminGate(header, lib) == Proceed && RoleUpdateErrors(role, userId, lib) == []
            && lib.isObjectId(userId) && FindUser(users, ById(userId)).None? ==>
              o == UsersOutcome(Response(404, Msg(USER_NOT_FOUND)), users)
    ensures o.response.status == 200 <==>
              AdminGate(header, lib) == Proceed && RoleUpdateErrors(role, userId, lib) == []
              && lib.isObjectId(userId) && FindUser(users, ById(userId)).Some?
    ensures o.response.status != 200 ==> o.users == users
    ensures o.response.status == 200 ==>
              var i := FindUser(users, ById(userId)).value;
              var r := ParseRole(role.value).value;
              |o.users| == |users|
              && o.users[i] == users[i].(role := r)
              && (forall j :: 0 <= j < |users| && j != i ==> o.users[j] == users[j])
              && o.response.body == RoleUpdated(UpdatedMessage(users[i].username, role.value), PublicObject(o.users[i]))
    ensures UsersValid(users) ==> UsersValid(o.users)
  {
    var gate := AdminGate(header, lib);
    if gate.Halt? then UsersOutcome(gate.response, users)
    else
      var errs := RoleUpdateErrors(role, userId, lib);
      if errs != [] then UsersOutcome(Response(400, Errors(errs)), users)
      else if !lib.isObjectId(userId) then UsersOutcome(Response(500, Plain(ROLE_UPDATE_FAILED)), users)
      else match FindUser(users, ById(userId))
        case None => UsersOutcome(Response(404, Msg(USER_NOT_FOUND)), users)
        case Some(i) =>
          var u := users[i].(role := ParseRole(role.value).value);
          UsersOutcome(Response(200, RoleUpdated(UpdatedMessage(u.username, role.value), PublicObject(u))),
                       users[i := u])
  }

  /** The message names the role actually stored. */
  lemma {:induction false} MessageNamesStoredRole(users: seq<UserRecord>, header: Option<string>, role: Option<string>,
                                                  userId: string, lib: Primitives)
    requires RoleUpdateOutcome(users, header, role, userId, lib).response.status == 200
    ensures var o := RoleUpdateOutcome(users, header, role, userId, lib);
            var i := FindUser(users, ById(userId)).value;
            RoleName(o.users[i].role) == role.value
            && o.response.body.user["role"] == Str(role.value)
            && FindUser(o.users, ById(userId)) == Some(i)
  {
    var o := RoleUpdateOutcome(users, header, role, userId, lib);
    var i := FindUser(users, ById(userId)).value;
    assert forall j :: 0 <= j < i ==> o.users[j] == users[j];
  }

  /** Setting a role and then setting the same role again changes nothing more. */
  lemma {:induction false} RoleUpdateIdempotent(users: seq<UserRecord>, header: Option<string>, role: Option<string>,
                                                userId: string, lib: Primitives)
    requires RoleUpdateOutcome(users, header, role, userId, lib).response.status == 200
    ensures var once := RoleUpdateOutcome(users, header, role, userId, lib).users;
            RoleUpdateOutcome(once, header, role, userId, lib).users == once
  {
    var once := RoleUpdateOutcome(users, header, role, userId, lib).users;
    var i := FindUser(users, ById(userId)).value;
    MessageNamesStoredRole(users, header, role, userId, lib);
    assert once[i := once[i].(role := ParseRole(role.value).value)] == once;
  }

  /** The handler, run after the two middlewares: `auth` fills `req.user`,
      `authorize` reads it, then the user is loaded, its role assigned and
      saved, and `password` deleted from the object sent back. */
  method UpdateUserRole(store: UserStore, header: Option<string>, role: Option<string>, userId: string,
                        lib: Primitives) returns (res: Response)
    requires store.Valid()
    modifies store
    ensures store.Valid()
    ensures var o := RoleUpdateOutcome(old(store.users), header, role, userId, lib);
            res == o.response && store.users == o.users
  {
    var req := new RequestContext();
    var next := req.Run(header, lib);
    if !next {
      return req.sent.value;
    }
    var gate := Authorize(ADMIN_ONLY, req.user);
    if gate.Halt? {
      return gate.response;
    }
    var errors := RoleUpdateErrors(role, userId, lib);
    if errors != [] {
      return Response(400, Errors(errors));
    }
    if !lib.isObjectId(userId) {
      return Response(500, Plain(ROLE_UPDATE_FAILED));
    }
    var found := FindUser(store.users, ById(userId));
    if found.None? {
      return Response(404, Msg(USER_NOT_FOUND));
    }
    var i := found.value;
    var user := store.users[i];
    user := user.(role := ParseRole(role.value).value);
    store.users := store.users[i := user];
    var userObject := ToObject(user);
    userObject := userObject - {"password"};
    res := Response(200, RoleUpdated(UpdatedMessage(user.username, role.value), userObject));
  }
}

/** The two Mongoose schemas: tasks (src/models/Task.ts) and users
    (src/models/User.ts), with their enumerations, defaults and the
    password-free serialisation of a user. */
module Models {
  import opened Common

  /** A document id as text (what `ObjectId.toString()` yields). */
  type Id = string

  datatype Role = Admin | Manager | User

  const ROLE_NAMES: seq<string> := ["Admin", "Manager", "User"]
  const DEFAULT_ROLE: Role := User

  function RoleName(r: Role): string {
    match r
    case Admin => "Admin"
    case Manager => "Manager"
    case User => "User"
  }

  /** The schema's `enum` check on a role string. */
  function ParseRole(s: string): (r: Option<Role>)
    ensures r.Some? <==> s in ROLE_NAMES
    ensures r.Some? ==> RoleName(r.value) == s
  {
    if s == "Admin" then Some(Admin)
    else if s == "Manager" then Some(Manager)
    else if s == "User" then Some(User)
    else None
  }

  lemma RoleNameRoundTrip(r: Role)
    ensures ParseRole(RoleName(r)) == Some(r)
    ensures RoleName(r) in ROLE_NAMES
  {
  }

  // ---------------------------------------------------------------- tasks

  const PRIORITIES: seq<string> := ["Low", "Medium", "High"]
  const DEFAULT_PRIORITY: string := "Medium"
  const STATUSES: seq<string> := ["Pending", "In Progress", "Completed", "Overdue"]
  const DEFAULT_STATUS: string := "Pending"

  /** A stored task. `priority` and `status` are the stored strings: the
      schema's enums are checked when a document is saved, but an update
      through `findByIdAndUpdate` (no `runValidators`) stores any string.
      `assignedTo` and `createdBy` are required references; `description`
      and `dueDate` (a millisecond timestamp) are optional; `createdAt` and
      `updatedAt` come from the schema's `timestamps` option. */
  datatype Task = Task(
    title: string,
    description: Option<string>,
    dueDate: Option<int>,
    priority: string,
    status: string,
    assignedTo: Id,
    createdBy: Id,
    createdAt: int,
    updatedAt: int)

  /** What the schema's validators accept on save: a non-empty title
      (`required`) and priority and status inside their enums. */
  predicate SchemaValid(t: Task) {
    t.title != "" && t.priority in PRIORITIES && t.status in STATUSES
  }

  /** `new Task({...})` followed by save: a missing priority or status takes
      the schema default, and both timestamps are the save time. */
  function NewTask(title: string, description: Option<string>, dueDate: Option<int>,
                   priority: Option<string>, status: Option<string>,
                   assignedTo: Id, createdBy: Id, now: int): (t: Task)
    ensures priority.None? ==> t.priority == DEFAULT_PRIORITY
    ensures status.None? ==> t.status == DEFAULT_STATUS
    ensures t.assignedTo == assignedTo && t.createdBy == createdBy && t.createdAt == now
    ensures (title != "" && (priority.Some? ==> priority.value in PRIORITIES)
             && (status.Some? ==> status.value in STATUSES)) ==> SchemaValid(t)
  {
    Task(title, description, dueDate,
         if priority.Some? then priority.value else DEFAULT_PRIORITY,
         if status.Some? then status.value else DEFAULT_STATUS,
         assignedTo, createdBy, now, now)
  }

  // ---------------------------------------------------------------- users

  /** A value in a document as a response sends it: a string, a date (in
      milliseconds; JSON renders it as an ISO string) or a number. */
  datatype Field = Str(text: string) | Date(ms: int) | Num(n: int)

  /** The version key Mongoose adds to every document; a new document has 0. */
  const VERSION_KEY: string := "__v"

  /** A stored user; `password` holds the bcrypt hash. There is no
      default for username, email or password: all three are required.
      `createdAt` defaults to the time of the save; `version` is `__v`. */
  datatype UserRecord = UserRecord(id: Id, username: string, email: string, password: string, role: Role,
                                   createdAt: int, version: nat)

  /** The user document as a field map: the schema's paths, `_id` and `__v`. */
  function Document(u: UserRecord): (r: map<string, Field>)
    ensures r.Keys == {"_id", "username", "email", "password", "role", "createdAt", VERSION_KEY}
    ensures r["_id"] == Str(u.id) && r["password"] == Str(u.password)
    ensures r["username"] == Str(u.username) && r["email"] == Str(u.email)
    ensures r["role"] == Str(RoleName(u.role))
    ensures r["createdAt"] == Date(u.createdAt) && r[VERSION_KEY] == Num(u.version)
  {
    map["_id" := Str(u.id), "username" := Str(u.username), "email" := Str(u.email),
        "password" := Str(u.password), "role" := Str(RoleName(u.role)),
        "createdAt" := Date(u.createdAt), VERSION_KEY := Num(u.version)]
  }

  /** The schema's `toJSON` transform, which deletes `password` from the
      output object. */
  function ToJson(u: UserRecord): (r: map<string, Field>)
    ensures "password" !in r
    ensures forall k :: k in r <==> k in Document(u) && k != "password"
    ensures forall k :: k in r ==> r[k] == Document(u)[k]
  {
    Document(u) - {"password"}
  }

  /** `toObject({ getters: true })`: the document plus the virtual `id`,
      a string copy of `_id`. */
  function ToObject(u: UserRecord): (r: map<string, Field>)
    ensures r.Keys == Document(u).Keys + {"id"}
    ensures r["id"] == Str(u.id)
    ensures forall k :: k in Document(u) ==> r[k] == Document(u)[k]
  {
    Document(u)["id" := Str(u.id)]
  }

  /** The user object the profile and role-update responses send: `toObject`
      of a user whose password was left out (by `.select('-password')` or by
      `delete userObject.password`). */
  function PublicObject(u: UserRecord): (r: map<string, Field>)
    ensures "password" !in r
    ensures r.Keys == {"_id", "id", "username", "email", "role", "createdAt", VERSION_KEY}
    ensures r["_id"] == Str(u.id) && r["id"] == Str(u.id)
    ensures r["username"] == Str(u.username) && r["email"] == Str(u.email)
    ensures r["role"] == Str(RoleName(u.role))
    ensures r["createdAt"] == Date(u.createdAt) && r[VERSION_KEY] == Num(u.version)
  {
    ToObject(u) - {"password"}
  }

  /** The token payload and `req.user`: exactly an id and a role. */
  datatype Claims = Claims(id: Id, role: Role)
}

# Task management API: a verified model

This project models the policy code of an Express/Mongoose task API. That code sits between the routes and the stores:

- which tasks a caller may list, update, delete or assign, and what each handler writes, broadcasts and notifies;
- the analytics fold over the tasks a role can see;
- the Redis response cache and its invalidation;
- the middleware order of each task route;
- JWT extraction, the role gate and the choice of rate limiter by role;
- registration, login, profile, logout and the admin role update over the users collection;
- the notification payload.

Each handler is specified in two layers:

1. A pure function gives the response and the new store in terms of the old store and the request. Its `ensures` list every branch of the handler: the error cases, the writes and the side effects.
2. A class method runs the handler step by step, the way the source does. It is proved to agree with that function.

Lemmas relate different operations: create then list, delete then update, register then login, a cache write then a later read, and the order of a route's middlewares.

Library behaviour is passed in as an opaque record of functions, `Library.Primitives`. It covers:

- `ObjectId.isValid`;
- express-validator's `isMongoId`, `isEmail` and `isISO8601`;
- date parsing;
- `$text` matching;
- bcrypt;
- jsonwebtoken sign and verify.

The clock, the generated ids, the bcrypt salt, whether the Socket.IO server is initialised, and the limiter counts are parameters.

Modules:

- `common.dfy`: Option, string helpers, and `String.prototype.replace` with a string pattern.
- `models.dfy`: task and user records, enums, defaults, and the password-free user serialisation.
- `library.dfy`: the library record described above.
- `http.dfy`: request and response bodies.
- `task_query.dfy`: the Mongo filter, the role-visibility rule, and `Task.find`.
- `task_controller.dfy`: the task handlers and `TaskService`.
- `analytics.dfy`: the role filter and the aggregation loop.
- `cache.dfy`: `cacheMiddleware`, `invalidateTasksCache` and `ResponseCache`.
- `task_routes.dfy`: the route table and the chain runner.
- `auth.dfy`: the JWT middleware.
- `rbac.dfy`: `authorize`.
- `rate_limit.dfy`: the limiter settings and the choice among them.
- `auth_controller.dfy`: the auth handlers and `UserStore`.
- `admin.dfy`: the role-update route.
- `notification.dfy`: the notification payload.

Where the code and its documentation disagree, the model follows the code:

- `assignTask` is documented as `PUT /api/tasks/assign/:taskId`. The router mounts it at `/:taskId/assign`.
- `invalidateTasksCache` is listed on the mutating routes, but it is never reached (see `TaskRoutes.InvalidationNeverRuns`).
- A cache hit is replayed with status 200, whatever status the stored response had.

## Model

| member | source | states |
|---|---|---|
| Models.ParseRole | src/models/User.ts:18-22 | a role string is accepted exactly when it is one of Admin, Manager, User, and it names the role it yields |
| Models.RoleNameRoundTrip | src/models/User.ts:18-22 | every role's name parses back to that role |
| Models.NewTask | src/models/Task.ts:17-41 | missing priority and status take the defaults Medium and Pending; a non-empty title and in-enum values give a schema-valid task |
| Models.ToJson | src/models/User.ts:27-32 | the serialised user has every document field except `password`, with unchanged values |
| Models.Document | src/models/User.ts:14-24 | a user document holds `_id`, the five schema paths (`createdAt` as a date) and the version key `__v` |
| Models.ToObject | src/controllers/authController.ts:151-153 | `toObject({ getters: true })` is the document plus the virtual `id`, equal to `_id` |
| Models.PublicObject | src/controllers/authController.ts:144-153 | the profile/role-update object has exactly `_id`, `id`, `username`, `email`, `role`, `createdAt` and `__v`, each with the stored value, and no password |
| Common.ReplaceFirst | src/middleware/auth.ts:15 | only the first occurrence of the pattern is replaced, wherever it stands; no occurrence leaves the string unchanged |
| Auth.Token | src/middleware/auth.ts:15 | no header gives no token; a header starting with "Bearer " gives the rest; a header without "Bearer " is the token itself |
| Auth.Authenticate | src/middleware/auth.ts:15-32 | an absent or empty token gives 401 "No token, authorization denied"; a failed verify gives 401 "Token is not valid"; otherwise the decoded claims are accepted |
| Auth.BareBearerRefused | src/middleware/auth.ts:15-20 | the header "Bearer " leaves an empty token and is refused like a missing header |
| Auth.InnerBearerRemoved | src/middleware/auth.ts:15 | "Bearer " is removed from the middle of a header too ("xBearer y" gives "xy") |
| Auth.SignedTokenAccepted | src/middleware/auth.ts:22-28 | "Bearer " plus a signed token authenticates as the signed claims |
| Auth.RequestContext.Run | src/middleware/auth.ts:12-33 | `next` is called exactly when the token verifies; `req.user` is set only then and a response is sent only otherwise |
| Rbac.Authorize | src/middleware/rbac.ts:6-27 | no user gives 401 whatever the list; a role outside the list gives 403; a listed role proceeds without a response |
| Rbac.RoleAloneDecides | src/middleware/rbac.ts:16-19 | two users with the same role get the same decision |
| Rbac.WiderListAdmitsMore | src/middleware/rbac.ts:19 | a role list containing another admits everyone the smaller one admits |
| RateLimit.SelectLimiter | src/middleware/roleBasedRateLimit.ts:7-16 | Admin gets the 500 limiter, Manager the 250 limiter, User or no user the 100 limiter, all with the 15-minute window |
| RateLimit.AllowanceFollowsRole | src/middleware/rateLimit.ts:4-31 | allowances are ordered Admin ≥ Manager ≥ User, all above the sensitive limiter's 50; no user is treated as a User |
| TaskQuery.Matches | src/controllers/taskController.ts:80-107 | the empty filter matches every task; what a filter selects is stated by `Find` and `FindSelectsMatching` |
| TaskQuery.FewerConditionsMatchMore | src/controllers/taskController.ts:94-107 | dropping conditions from a filter keeps every task it matched |
| TaskQuery.RoleVisible | src/controllers/taskController.ts:80-91 | an Admin sees every task, everyone sees the tasks assigned to them, and a Manager also sees those they created; nothing else is visible |
| TaskQuery.Find | src/controllers/taskController.ts:117 | every returned pair is a stored task that matches the filter; every matching stored id is returned; no id twice |
| TaskQuery.FindSelectsMatching | src/controllers/taskController.ts:117 | the returned ids are exactly the matching ids, each once |
| TaskController.CreateErrors | src/controllers/taskController.ts:12-17 | no errors exactly when the input is valid; one error per failed check (title, dueDate, priority, assignedTo) |
| TaskController.CreatedTask | src/controllers/taskController.ts:38-46 | the new task has status Pending whatever the body says, `createdBy` is the caller, title, description, priority (default Medium), due date and assignee come from the body, both timestamps are the save time, and it is schema-valid |
| TaskController.CreateOutcome | src/controllers/taskController.ts:27-63 | invalid input gives 400 and no write; a failed save gives 500 and no write; a save stores `CreatedTask` under the new id and appends the id to the order; an uninitialised socket gives 500 after the write; otherwise 201 with that task as body, the `task:created` event and a TASK_CREATED note to the assignee |
| TaskController.TaskService.CreateTask | src/controllers/taskController.ts:27-63 | the new store, response, events and notes are those of CreateOutcome |
| TaskController.ListSort | src/controllers/taskController.ts:110-114 | the default sort is `createdAt` descending; with `sortBy` it is descending exactly when `sortOrder` is "desc" |
| TaskController.BuildListQuery | src/controllers/taskController.ts:76-114 | the filter built field by field matches a task exactly when the role filter and the caller's conditions hold; due-date bounds inclusive |
| TaskController.ListQueryMeaning | src/controllers/taskController.ts:80-107 | the field-wise filter means "role-visible and caller conditions" |
| TaskController.TaskService.GetTasks | src/controllers/taskController.ts:71-128 | 500 when a due-date bound does not cast; otherwise 200 with exactly the visible, conditioned tasks, each once and as stored |
| TaskController.Merge | src/controllers/taskController.ts:170 | each supplied field takes the supplied value (a due date as cast), each absent one keeps the stored value; `createdAt` is kept and `updatedAt` becomes the update time |
| TaskController.MergeIdempotent | src/controllers/taskController.ts:170 | applying the same update twice gives the same task |
| TaskController.MayUpdate | src/controllers/taskController.ts:157-159 | an Admin, the assignee or the creator may update; no one else |
| TaskController.MayDelete | src/controllers/taskController.ts:210-212 | an Admin or the creator may delete; an assignee who is neither may not |
| TaskController.Found | src/controllers/taskController.ts:145-155 | a task is found only under a valid ObjectId that is stored, and then it is also in the store's order |
| TaskController.UpdateKind | src/controllers/taskController.ts:141-167 | TASK_ASSIGNED exactly when `assignedTo` is supplied and differs from the stored one, otherwise TASK_STATUS_UPDATE |
| TaskController.UpdateOutcome | src/controllers/taskController.ts:136-185 | a malformed or unknown id gives 404 before the permission check; a caller who is not Admin, assignee or creator gets 403 and no write; otherwise the merged task is stored and the post-update assignee is notified |
| TaskController.TaskService.UpdateTask | src/controllers/taskController.ts:136-185 | state and response are those of UpdateOutcome |
| TaskController.DeleteOutcome | src/controllers/taskController.ts:193-236 | 404 before 403; only Admin or the creator deletes; the record goes; the broadcast holds only the id; the prior assignee gets TASK_DELETED |
| TaskController.TaskService.DeleteTask | src/controllers/taskController.ts:193-236 | state and response are those of DeleteOutcome |
| TaskController.AssignOutcome | src/controllers/taskController.ts:244-279 | a malformed task or user id gives 400 before any lookup; an unknown task gives 404; otherwise only `assignedTo` (and `updatedAt`) change and the new assignee is notified |
| TaskController.TaskService.AssignTask | src/controllers/taskController.ts:244-279 | state and response are those of AssignOutcome |
| TaskController.Without | src/controllers/taskController.ts:220 | removing an id keeps every other id and no duplicates |
| TaskController.AppendKeepsLists | src/controllers/taskController.ts:48 | saving a new id keeps the store's order and its map in agreement |
| TaskController.PermissionsNest | src/controllers/taskController.ts:157-212 | whoever may list or delete a task may update it |
| TaskController.UserUpdatesUnlistedTask | src/controllers/taskController.ts:157-159 | a User may update a task they created but cannot list it |
| TaskController.CreatedTaskListedToAssignee | src/controllers/taskController.ts:38-48 | a created task is listed to its assignee, whatever the assignee's role |
| TaskController.DeletedTaskIsGone | src/controllers/taskController.ts:193-220 | after a delete, update and delete of the id give 404 and no query returns it |
| TaskController.AssignedTaskListedToAssignee | src/controllers/taskController.ts:260-264 | after assignment the new assignee, as a User, lists the task |
| Analytics.FilterByRole | src/controllers/analyticsController.ts:28-43 | the analytics filter matches exactly the role-visible tasks, the same rule as the task list |
| Analytics.RowOf | src/controllers/analyticsController.ts:58-60 | a row carries the task's status, priority and due date, and the assignee's username exactly when the assignee id resolves |
| Analytics.Rows | src/controllers/analyticsController.ts:58-60 | one row per fetched task, with its status, priority, due date and resolved assignee name |
| Analytics.Count | src/controllers/analyticsController.ts:78-108 | a count never exceeds the number of rows |
| Analytics.CountStep | src/controllers/analyticsController.ts:78-108 | one more row adds one to a count exactly when the row passes the test |
| Analytics.Bump | src/controllers/analyticsController.ts:80-85 | a bucket increment keeps the bucket set |
| Analytics.StatusBucketsStep | src/controllers/analyticsController.ts:80-82 | after each row the status buckets are the counts over the rows so far |
| Analytics.PriorityBucketsStep | src/controllers/analyticsController.ts:83-85 | after each row the priority buckets are the counts over the rows so far |
| Analytics.Enter | src/controllers/analyticsController.ts:97-107 | a row without a resolved name, or whose name is an `Object.prototype` property such as `constructor`, leaves the leaderboard; otherwise that name's total goes up by one, its completed count by one exactly for a Completed row, and every other entry is kept |
| Analytics.BoardStep | src/controllers/analyticsController.ts:98-107 | entering a row keeps the leaderboard equal to per-name totals and completions so far |
| Analytics.BoardOfIsBoard | src/controllers/analyticsController.ts:98-107 | the leaderboard has an entry exactly for each resolved name that is not an inherited property name, with its totals; the entry totals add up to those rows |
| Analytics.InheritedNameLeftOff | src/controllers/analyticsController.ts:100-102 | a user named after an `Object.prototype` property never appears on the leaderboard |
| Analytics.SumTotalsRemove | src/controllers/analyticsController.ts:98-107 | the sum of entry totals splits off any one entry |
| Analytics.SumTotalsUpdate | src/controllers/analyticsController.ts:100-103 | replacing one entry changes the sum by the difference |
| Analytics.ReportOfRows | src/controllers/analyticsController.ts:70-116 | a report with these components summarises the rows |
| Analytics.Aggregate | src/controllers/analyticsController.ts:66-116 | the loop's total, status and priority buckets, overdue and due-soon counts and leaderboard are the counts over all rows; the leaderboard is absent when not asked for |
| Analytics.GetTaskAnalytics | src/controllers/analyticsController.ts:50-118 | `totalTasks` is the number of role-visible tasks; the leaderboard is present exactly for Admin and Manager |
| Analytics.StatusBucketsBound | src/controllers/analyticsController.ts:72-82 | the status buckets add up to at most the row count, with equality exactly when every status is Pending, In Progress or Completed |
| Analytics.PriorityBucketsBound | src/controllers/analyticsController.ts:73-85 | the same for Low, Medium and High |
| Analytics.OverdueStatusUncounted | src/controllers/analyticsController.ts:78-82 | in any report, once one task has the schema's status Overdue, the three status buckets add up to less than the total |
| Analytics.OverdueDueSoonBound | src/controllers/analyticsController.ts:62-95 | overdue and due soon are disjoint, so their sum is at most the total |
| Analytics.CompletedWithinAssigned | src/controllers/analyticsController.ts:103-106 | a name's completed count never exceeds its total |
| Analytics.ReportBounds | src/controllers/analyticsController.ts:70-116 | bucket sums ≤ total, overdue + due soon ≤ total, leaderboard totals sum ≤ total, completed ≤ total per entry |
| Analytics.SeedCounts | src/tests/analytics.test.ts:52-77 | the three seeded tasks give total 3, overdue 1, due soon 1 and one per bucket |
| Analytics.SeedLeaderboard | src/tests/analytics.test.ts:78-81 | the seeded leaderboard is `{user: {2, 0}, manager: {1, 1}}` |
| Analytics.SeedAssigned | src/tests/analytics.test.ts:52-54 | per-name task counts of the seed |
| Analytics.CountThree | src/controllers/analyticsController.ts:78-108 | a count over three rows is the sum of the three tests |
| Cache.Decide | src/middleware/cache.ts:8-37 | a non-GET bypasses; a Redis failure falls through with nothing stored; a live entry under `originalUrl` is a hit with its body; otherwise a miss under that key |
| Cache.DecisionIgnoresCaller | src/middleware/cache.ts:14 | two requests for the same URL get the same decision whoever sends them |
| Cache.StoredBodyServedToAll | src/middleware/cache.ts:27-30 | a stored body is served to any later request for the URL during the 300 seconds and not after |
| Cache.ResponseCache.Lookup | src/middleware/cache.ts:10-19 | the lookup is the decision above |
| Cache.ResponseCache.SetEx | src/middleware/cache.ts:27-30 | the entry is stored with expiry now + 300 when Redis is reachable |
| Cache.TaskKeys | src/middleware/cacheInvalidation.ts:6 | the keys listed are exactly the stored keys starting with `/api/tasks` |
| Cache.WithoutTaskKeys | src/middleware/cacheInvalidation.ts:6-8 | no key starting with `/api/tasks` remains; every other key keeps its entry |
| Cache.InvalidationIdempotent | src/middleware/cacheInvalidation.ts:6-8 | invalidating twice leaves what invalidating once leaves; the keys left are the stored keys minus the listed task keys |
| Cache.ResponseCache.InvalidateTasksCache | src/middleware/cacheInvalidation.ts:4-15 | the task keys are deleted and returned; nothing is deleted when none match; a failure leaves the store and is swallowed |
| TaskRoutes.Limit | src/middleware/rateLimit.ts:4-35 | a limiter over its count answers 429 with its message, otherwise passes the request on |
| TaskRoutes.Run | src/routes/task.ts:20-35 | a controller always sends and never calls `next`; validation and invalidation always call `next` |
| TaskRoutes.Execute | src/routes/task.ts:20-35 | the stages run form a prefix of the route's stages; no response means every stage ran and none was a controller |
| TaskRoutes.NothingRunsAfterController | src/routes/task.ts:23-35 | no stage after a controller runs, and a response is sent |
| TaskRoutes.NeverReached | src/routes/task.ts:23-35 | a stage not listed up to the controller never runs |
| TaskRoutes.InvalidationNeverRuns | src/routes/task.ts:23-35 | `invalidateTasksCache` is listed on every mutating route and runs on none |
| TaskRoutes.AuthenticationFirst | src/routes/task.ts:20 | `auth` runs first on every route; when it refuses, nothing else runs |
| TaskRoutes.SensitiveLimitGuardsMutations | src/routes/task.ts:23-35 | on a mutating route the sensitive limiter comes right after `auth`; over its count the caller gets 429 and no controller runs |
| TaskRoutes.OnlyAssignersAssign | src/routes/task.ts:29 | a User gets 403 before `assignTask` runs; Admin and Manager reach it |
| TaskRoutes.CacheHitSkipsController | src/routes/task.ts:26 | on the list route a live entry is sent with 200 and `getTasks` does not run; otherwise `getTasks` answers |
| TaskRoutes.CreationValidatedFirst | src/routes/task.ts:23 | `createTask` runs only after `taskCreationValidation` |
| TaskRoutes.ServeTaskList | src/routes/task.ts:26 | a hit replays the stored body; on a miss the `getTasks` response is stored for 300 s and lists exactly the visible, conditioned tasks; a Redis failure stores nothing |
| AuthController.UsersValid | src/models/User.ts:16 | no two users share an email (the unique index) or an id |
| AuthController.FindUser | src/controllers/authController.ts:49-144 | the query returns the first matching record, or none exactly when no record matches |
| AuthController.RegisterErrors | src/controllers/authController.ts:18-22 | no errors exactly when username is non-empty, email valid and password at least 6 characters; one error per failed check |
| AuthController.RegisterOutcome | src/controllers/authController.ts:37-82 | a validation failure gives 400 and no write; an existing email gives 400 "User already exists" and no write; otherwise the user is stored with the hashed password and the User role, and a token for `{id, role}` is returned with 201; the unique email and id invariant is kept |
| AuthController.UserStore.RegisterUser | src/controllers/authController.ts:37-82 | state and response are those of RegisterOutcome |
| AuthController.LoginErrors | src/controllers/authController.ts:24-27 | no errors exactly when the email is valid and the password present |
| AuthController.LoginOutcome | src/controllers/authController.ts:90-126 | an unknown email and a wrong password give the same 400 "Invalid Credentials"; a match gives a token for the stored id and role |
| AuthController.UserStore.LoginUser | src/controllers/authController.ts:90-126 | the response is LoginOutcome, and the store is only read |
| AuthController.RegisterThenLogin | src/controllers/authController.ts:56-121 | after registering, logging in with the same email and password yields a token signed for `{id: newId, role: User}` |
| AuthController.ProfileOutcome | src/controllers/authController.ts:133-159 | a missing `req.user.id` gives 401; an unknown id gives 404; a found user is returned without password |
| AuthController.UserStore.GetUserProfile | src/controllers/authController.ts:133-159 | the response is ProfileOutcome, and the store is only read |
| AuthController.RegisterThenProfile | src/controllers/authController.ts:56-153 | the registered user's profile shows its username, email, the User role, the registration time as `createdAt` and version 0 |
| AuthController.UserStore.LogoutUser | src/controllers/authController.ts:166-176 | logout always answers 200 with its message and writes nothing |
| Admin.AdminGate | src/routes/admin.ts:11-12 | only a request whose token verifies to an Admin passes |
| Admin.RoleUpdateErrors | src/routes/admin.ts:15-18 | no errors exactly when the role is one of the three names and the userId is a Mongo id |
| Admin.UpdatedMessage | src/routes/admin.ts:52 | the message starts "Role for user " and the username, and ends with the role |
| Admin.RoleUpdateOutcome | src/routes/admin.ts:11-59 | a request the gate stops, invalid input or an unknown user leaves the store unchanged with 401/403, 400 or 404; on success only that user's role changes and the response names the username and the new role without the password |
| Admin.UpdateUserRole | src/routes/admin.ts:11-59 | state and response are those of RoleUpdateOutcome |
| Admin.MessageNamesStoredRole | src/routes/admin.ts:45-52 | the stored role, the response's role field and the message's role agree |
| Admin.RoleUpdateIdempotent | src/routes/admin.ts:45-46 | repeating a successful role update changes nothing more |
| Notification.ParseKind | src/services/notificationService.ts:12 | only the four type names are read back, each to its own kind |
| Notification.Subject | src/services/notificationService.ts:32 | the subject is "Task update: " followed by the type |
| Notification.Message | src/services/notificationService.ts:34 | the message is "Task ", the title (or "undefined"), " (", the id, ") was " and the lower-cased type |
| Notification.MessageDeterminesKind | src/services/notificationService.ts:34 | two messages about the same task are equal only when their types are |
| Notification.Send | src/services/notificationService.ts:24-60 | nothing is sent unless both URL and key are set; the body is `{to, type, data: {subject, message, taskId}}` |
| Notification.SubjectDeterminesKind | src/services/notificationService.ts:32 | different types give different subjects, and the type reads back from the subject |
| Notification.LowerCasedNames | src/services/notificationService.ts:34 | the lower-cased type names that end the message |
| Notification.DeletedMessage | src/controllers/taskController.ts:228 | the delete notification's message reads "Task undefined (<id>) was task_deleted" |

## Left out

- The MongoDB, Redis and Socket.IO connections and process wiring are not modelled (src/index.ts, src/config/, src/utils/socket.ts). The broadcaster is a flag saying whether it was initialised. A Mongo failure other than the modelled cast and duplicate-id errors is not modelled.
- The routes in src/routes/auth.ts and src/routes/analytics.ts only mount handlers and are not part of this model. The handlers themselves are modelled.
- The order of the listed tasks is not modelled. `ListSort` builds the sort specification, but `GetTasks` states the set of returned tasks and not their order.
- `populate` is not modelled; a listed task carries ids where the response carries user objects. The analytics leaderboard receives the id-to-username map as a parameter.
- `$text` search is an opaque predicate. So are `ObjectId.isValid`, express-validator's checks, date parsing, bcrypt and jsonwebtoken.
- jsonwebtoken's expiry and the extra `iat` and `exp` fields of the decoded token are not modelled. `req.user` is exactly `{id, role}`, and `sign` is a function of the claims alone, so two tokens signed at different seconds are not told apart.
- express-rate-limit's counting per IP and window is not modelled. Whether a limiter still admits a request is a parameter.
- Concurrency and async scheduling are not modelled: every handler runs atomically.
- The axios POST of a notification is I/O. The service catches its errors, so it cannot affect a handler.
- `Task.priority` and `Task.status` are plain strings. `findByIdAndUpdate` runs no validators, so an update may store any value, and `null` values in `$set` are not modelled.
- ObjectId case canonicalisation is not modelled: ids are compared as text.
- `createTask`'s cast of `createdBy` is not modelled.
- The Content-Type of a cache hit is not modelled. A hit replays the stored body text with status 200.
- Cache.TaskKeys also lists stored keys that are past their expiry, which Redis `KEYS` leaves out. Deleting them changes nothing visible, but when only expired task keys remain, `InvalidateTasksCache` reports them deleted where the source issues no `DEL`.
- `setDate(+1)` and its calendar rules are not modelled: "tomorrow" is now plus 86 400 000 ms.
- Analytics uses JavaScript's `in` test on its bucket objects, which also accepts inherited keys such as `constructor`. The model accepts only the bucket names.
- AuthController.RegisterErrors: express-validator's `isLength` does not count variation selectors. The model counts every character.
- console logging is not modelled.
- For a username that is an `Object.prototype` property, the source's `++` lands on the inherited value (leaving `NaN` on the shared prototype, visible to later requests). The model leaves that name off the leaderboard, as the source does, but does not model the prototype change.
- Query values are strings. Express's query parser also yields objects (`?status[$ne]=Completed`) and arrays (`?status=a&status=b`), which `getTasks` copies into the filter as an operator or a set match. That reading of the filter is not modelled.
- TaskController.TaskService.GetTasks and Analytics.GetTaskAnalytics: a Manager or User whose token carries an `id` that is not an ObjectId makes the cast of `assignedTo`/`createdBy` in the filter fail, so `getTasks` answers 500 and `getTaskAnalytics` answers 500 from its catch. The model compares the id as text and has no failure here: the list answers 200 and the analytics report is computed. Such a token is one the server never signs.
- The version key `__v` is 0 on registration and is not changed by the role update's `save`, which modifies no array.

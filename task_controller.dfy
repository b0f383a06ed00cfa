/** The task handlers of src/controllers/taskController.ts: creation with its
    validation list, the list query, update, delete and assignment.

    Each handler is specified by a function from the store before the call
    to an `Outcome`: the response, the store after the call, the socket
    events emitted and the notifications dispatched. `TaskService` holds the
    same state in fields and runs each handler step by step; its methods are
    proved to agree with those functions. */
module TaskController {
  import opened Common
  import opened Models
  import opened Library
  import opened Http
  import opened TaskQuery
  import N = Notification

  // ---------------------------------------------------------------- state

  /** The task collection: documents by id, and the store's own order of
      them (insertion order), in which `find` returns them. */
  datatype Store = Store(docs: map<Id, Task>, order: seq<Id>)

  predicate StoreValid(s: Store) {
    Lists(s.order, s.docs)
  }

  /** The payload of a Socket.IO event: `{ task }` or `{ taskId }`. */
  datatype Payload = WithTask(id: Id, task: Task) | WithTaskId(taskId: Id)

  /** One `io.emit(name, payload)`. */
  datatype Event = Event(name: string, payload: Payload)

  datatype Outcome = Outcome(response: Response, store: Store, events: seq<Event>, notes: seq<N.Dispatch>)

  /** An early return: a response, and nothing written, emitted or sent. */
  function Refused(s: Store, status: int, body: Body): Outcome {
    Outcome(Response(status, body), s, [], [])
  }

  const TASK_NOT_FOUND: string := "Task not found"
  const UPDATE_FORBIDDEN: string := "Forbidden: You do not have permission to update this task."
  const DELETE_FORBIDDEN: string := "Forbidden: You do not have permission to delete this task."
  const INVALID_IDS: string := "Invalid Task ID or User ID"
  const TASK_REMOVED: string := "Task removed"
  const CREATE_FAILED: string := "Server error creating task"
  const LIST_FAILED: string := "Server error retrieving tasks"
  const UPDATE_FAILED: string := "Server error updating task"
  const DELETE_FAILED: string := "Server error deleting task"
  const ASSIGN_FAILED: string := "Server error assigning task"

  /** `order` without `id`: what `findByIdAndDelete` leaves of the order. */
  function Without(order: seq<Id>, id: Id): (r: seq<Id>)
    ensures forall x :: x in r <==> x in order && x != id
    ensures NoDup(order) ==> NoDup(r)
  {
    if order == [] then []
    else
      var tail := Without(order[1..], id);
      if order[0] == id then tail
      else
        assert NoDup(order) ==> order[0] !in order[1..] by {
          if NoDup(order) {
            forall j | 0 <= j < |order[1..]| ensures order[1..][j] != order[0] {
              assert order[1..][j] == order[j + 1];
            }
          }
        }
        [order[0]] + tail
  }

  lemma AppendKeepsLists(s: Store, id: Id, t: Task)
    requires StoreValid(s) && id !in s.docs
    ensures StoreValid(Store(s.docs[id := t], s.order + [id]))
  {
    var o := s.order + [id];
    forall a, b | 0 <= a < b < |o| ensures o[a] != o[b] {
      if b == |s.order| { assert o[a] in s.order; }
    }
  }

  // ---------------------------------------------------------------- create

  /** The request body of `POST /api/tasks`; absent fields are None. A
      `status` in the body is read by nobody. */
  datatype CreateBody = CreateBody(
    title: Option<string>,
    description: Option<string>,
    dueDate: Option<string>,
    priority: Option<string>,
    status: Option<string>,
    assignedTo: Option<string>)

  const TITLE_REQUIRED: string := "Title is required"
  const DUE_DATE_INVALID: string := "Due date must be a valid date"
  const PRIORITY_INVALID: string := "Invalid priority value"
  const ASSIGNEE_INVALID: string := "Assigned user ID must be a valid Mongo ID"

  /** The four checks of `taskCreationValidation`. `optional()` skips only an
      absent value; an absent required field reads as the empty string. */
  predicate CreateInputOk(b: CreateBody, lib: Primitives) {
    && Text(b.title) != ""
    && (b.dueDate.Some? ==> lib.isISO8601(b.dueDate.value))
    && (b.priority.Some? ==> b.priority.value in PRIORITIES)
    && lib.isMongoId(Text(b.assignedTo))
  }

  /** `validationResult(req).array()`: one entry per failed check, in the
      order the checks are listed. */
  function CreateErrors(b: CreateBody, lib: Primitives): (errs: seq<FieldError>)
    ensures errs == [] <==> CreateInputOk(b, lib)
    ensures FieldError("title", TITLE_REQUIRED) in errs <==> Text(b.title) == ""
    ensures FieldError("dueDate", DUE_DATE_INVALID) in errs
            <==> b.dueDate.Some? && !lib.isISO8601(b.dueDate.value)
    ensures FieldError("priority", PRIORITY_INVALID) in errs
            <==> b.priority.Some? && b.priority.value !in PRIORITIES
    ensures FieldError("assignedTo", ASSIGNEE_INVALID) in errs <==> !lib.isMongoId(Text(b.assignedTo))
    ensures |errs| <= 4
  {
    (if Text(b.title) == "" then [FieldError("title", TITLE_REQUIRED)] else [])
    + (if b.dueDate.Some? && !lib.isISO8601(b.dueDate.value)
       then [FieldError("dueDate", DUE_DATE_INVALID)] else [])
    + (if b.priority.Some? && b.priority.value !in PRIORITIES
       then [FieldError("priority", PRIORITY_INVALID)] else [])
    + (if !lib.isMongoId(Text(b.assignedTo)) then [FieldError("assignedTo", ASSIGNEE_INVALID)] else [])
  }

  /** Whether `newTask.save()` succeeds: the body passed validation, an
      assignee is present (the schema requires one) and the generated id is
      not taken (a duplicate `_id` is rejected by the store). */
  predicate CreateSaves(s: Store, b: CreateBody, newId: Id, lib: Primitives) {
    CreateInputOk(b, lib) && b.assignedTo.Some? && newId !in s.docs
  }

  /** The document `new Task({...})` builds: the status is `Pending` whatever
      the body says and the creator is the caller. */
  function CreatedTask(b: CreateBody, caller: Claims, now: int, lib: Primitives): (t: Task)
    requires CreateInputOk(b, lib) && b.assignedTo.Some?
    ensures t.status == DEFAULT_STATUS && t.createdBy == caller.id
    ensures t.title == b.title.value && t.assignedTo == b.assignedTo.value
    ensures t.priority == (if b.priority.Some? then b.priority.value else DEFAULT_PRIORITY)
    ensures t.description == b.description
    ensures t.dueDate == (if b.dueDate.Some? then Some(lib.toDate(b.dueDate.value)) else None)
    ensures t.createdAt == now && t.updatedAt == now
    ensures SchemaValid(t)
  {
    NewTask(b.title.value, b.description,
            if b.dueDate.Some? then Some(lib.toDate(b.dueDate.value)) else None,
            b.priority, Some("Pending"), b.assignedTo.value, caller.id, now)
  }

  /** `createTask`. */
  function CreateOutcome(s: Store, caller: Claims, b: CreateBody, newId: Id, now: int,
                         socketReady: bool, lib: Primitives): (o: Outcome)
    requires StoreValid(s)
    ensures StoreValid(o.store)
    ensures !CreateInputOk(b, lib) ==> o == Refused(s, 400, Errors(CreateErrors(b, lib)))
    ensures CreateInputOk(b, lib) && !CreateSaves(s, b, newId, lib)
            ==> o == Refused(s, 500, Plain(CREATE_FAILED))
    ensures !CreateSaves(s, b, newId, lib) ==> o.store == s
    ensures CreateSaves(s, b, newId, lib) ==>
              && o.store == Store(s.docs[newId := CreatedTask(b, caller, now, lib)], s.order + [newId])
              && o.store.docs[newId].status == DEFAULT_STATUS
              && o.store.docs[newId].createdBy == caller.id
              && SchemaValid(o.store.docs[newId])
    ensures CreateSaves(s, b, newId, lib) && !socketReady
            ==> o.response == Response(500, Plain(CREATE_FAILED)) && o.events == [] && o.notes == []
    ensures CreateSaves(s, b, newId, lib) && socketReady ==>
              && o.response == Response(201, TaskJson(newId, CreatedTask(b, caller, now, lib)))
              && o.events == [Event("task:created", WithTask(newId, o.store.docs[newId]))]
              && o.notes == [N.Dispatch(N.TaskCreated, N.TaskRef(newId, b.title), b.assignedTo.value)]
  {
    if !CreateInputOk(b, lib) then Refused(s, 400, Errors(CreateErrors(b, lib)))
    else if !CreateSaves(s, b, newId, lib) then Refused(s, 500, Plain(CREATE_FAILED))
    else
      var t := CreatedTask(b, caller, now, lib);
      AppendKeepsLists(s, newId, t);
      var s' := Store(s.docs[newId := t], s.order + [newId]);
      if !socketReady then Outcome(Response(500, Plain(CREATE_FAILED)), s', [], [])
      else Outcome(Response(201, TaskJson(newId, t)), s',
                   [Event("task:created", WithTask(newId, t))],
                   [N.Dispatch(N.TaskCreated, N.TaskRef(newId, b.title), b.assignedTo.value)])
  }

  // ---------------------------------------------------------------- list

  /** The query string of `GET /api/tasks`; absent parameters are None. */
  datatype ListParams = ListParams(
    status: Option<string>,
    priority: Option<string>,
    sortBy: Option<string>,
    sortOrder: Option<string>,
    search: Option<string>,
    dueDateFrom: Option<string>,
    dueDateTo: Option<string>)

  /** The caller's own conditions, each applied only when the parameter is
      present and non-empty: status and priority by equality, `search` by
      text search, and an inclusive due-date range that only tasks with a
      due date can satisfy. */
  predicate CallerFilter(p: ListParams, t: Task, lib: Primitives) {
    && (Filled(p.status) ==> t.status == p.status.value)
    && (Filled(p.priority) ==> t.priority == p.priority.value)
    && (Filled(p.search) ==> lib.textMatches(p.search.value, t))
    && (Filled(p.dueDateFrom) ==> t.dueDate.Some? && lib.toDate(p.dueDateFrom.value) <= t.dueDate.value)
    && (Filled(p.dueDateTo) ==> t.dueDate.Some? && t.dueDate.value <= lib.toDate(p.dueDateTo.value))
  }

  /** Whether the store can cast the due-date bounds to dates; an invalid
      date makes `find` fail. */
  predicate ListCasts(p: ListParams, lib: Primitives) {
    (Filled(p.dueDateFrom) ==> lib.isDate(p.dueDateFrom.value))
    && (Filled(p.dueDateTo) ==> lib.isDate(p.dueDateTo.value))
  }

  /** The sort `getTasks` asks for: newest first by default; with `sortBy`,
      descending exactly when `sortOrder` is `desc`. */
  function ListSort(p: ListParams): (r: SortSpec)
    ensures !Filled(p.sortBy) ==> r == SortSpec("createdAt", true)
    ensures Filled(p.sortBy) ==> r.field == p.sortBy.value && (r.descending <==> p.sortOrder == Some("desc"))
  {
    if Filled(p.sortBy) then SortSpec(p.sortBy.value, p.sortOrder == Some("desc"))
    else SortSpec("createdAt", true)
  }

  /** The filter and sort `getTasks` builds, field by field: first the role
      restriction, then the caller's conditions. */
  method BuildListQuery(caller: Claims, p: ListParams, lib: Primitives) returns (q: Query, sort: SortSpec)
    ensures forall t :: Matches(q, t, lib) <==> RoleVisible(caller, t) && CallerFilter(p, t, lib)
    ensures sort == ListSort(p)
  {
    q := EMPTY;
    if caller.role == User {
      q := q.(assignedTo := Some(caller.id));
    }
    if caller.role == Manager {
      q := q.(anyOf := Some([CreatedBy(caller.id), AssignedTo(caller.id)]));
    }
    if Filled(p.status) { q := q.(status := p.status); }
    if Filled(p.priority) { q := q.(priority := p.priority); }
    if Filled(p.search) { q := q.(text := p.search); }
    if Filled(p.dueDateFrom) || Filled(p.dueDateTo) {
      if Filled(p.dueDateFrom) { q := q.(dueFrom := Some(lib.toDate(p.dueDateFrom.value))); }
      if Filled(p.dueDateTo) { q := q.(dueTo := Some(lib.toDate(p.dueDateTo.value))); }
    }
    if Filled(p.sortBy) {
      sort := SortSpec(p.sortBy.value, if p.sortOrder == Some("desc") then true else false);
    } else {
      sort := SortSpec("createdAt", true);
    }
    ListQueryMeaning(caller, p, lib, q);
  }

  /** A filter with the role restriction and the caller's conditions in
      place selects exactly the visible tasks passing those conditions. */
  lemma ListQueryMeaning(caller: Claims, p: ListParams, lib: Primitives, q: Query)
    requires q.assignedTo == (if caller.role == User then Some(caller.id) else None)
    requires q.anyOf == (if caller.role == Manager then Some([CreatedBy(caller.id), AssignedTo(caller.id)]) else None)
    requires q.status == (if Filled(p.status) then p.status else None)
    requires q.priority == (if Filled(p.priority) then p.priority else None)
    requires q.text == (if Filled(p.search) then p.search else None)
    requires q.dueFrom == (if Filled(p.dueDateFrom) then Some(lib.toDate(p.dueDateFrom.value)) else None)
    requires q.dueTo == (if Filled(p.dueDateTo) then Some(lib.toDate(p.dueDateTo.value)) else None)
    ensures forall t :: Matches(q, t, lib) <==> RoleVisible(caller, t) && CallerFilter(p, t, lib)
  {
    forall t ensures Matches(q, t, lib) <==> RoleVisible(caller, t) && CallerFilter(p, t, lib) {
      if caller.role == Manager {
        var cs := [CreatedBy(caller.id), AssignedTo(caller.id)];
        assert ClauseHolds(cs[0], t) <==> t.createdBy == caller.id;
        assert ClauseHolds(cs[1], t) <==> t.assignedTo == caller.id;
      }
    }
  }

  // ---------------------------------------------------------------- update

  /** The fields of an update body that are paths of the schema; absent
      fields are None. The body is `$set` as given: no validator runs. */
  datatype Patch = Patch(
    title: Option<string>,
    description: Option<string>,
    dueDate: Option<string>,
    priority: Option<string>,
    status: Option<string>,
    assignedTo: Option<string>,
    createdBy: Option<string>)

  const NO_CHANGE: Patch := Patch(None, None, None, None, None, None, None)

  /** Whether the store can cast every supplied value to its path's type. */
  predicate PatchCasts(p: Patch, lib: Primitives) {
    && (p.dueDate.Some? ==> lib.isDate(p.dueDate.value))
    && (p.assignedTo.Some? ==> lib.isObjectId(p.assignedTo.value))
    && (p.createdBy.Some? ==> lib.isObjectId(p.createdBy.value))
  }

  function Pick<T>(o: Option<T>, otherwise: T): T {
    if o.Some? then o.value else otherwise
  }

  /** `findByIdAndUpdate(id, { $set: updates }, { new: true })`: the supplied
      fields overwrite, the others are kept, `updatedAt` becomes the time of
      the write. */
  function Merge(t: Task, p: Patch, now: int, lib: Primitives): (r: Task)
    ensures p.title.None? ==> r.title == t.title
    ensures p.description.None? ==> r.description == t.description
    ensures p.dueDate.None? ==> r.dueDate == t.dueDate
    ensures p.priority.None? ==> r.priority == t.priority
    ensures p.status.None? ==> r.status == t.status
    ensures p.assignedTo.None? ==> r.assignedTo == t.assignedTo
    ensures p.createdBy.None? ==> r.createdBy == t.createdBy
    ensures p.title.Some? ==> r.title == p.title.value
    ensures p.description.Some? ==> r.description == p.description
    ensures p.dueDate.Some? ==> r.dueDate == Some(lib.toDate(p.dueDate.value))
    ensures p.priority.Some? ==> r.priority == p.priority.value
    ensures p.status.Some? ==> r.status == p.status.value
    ensures p.assignedTo.Some? ==> r.assignedTo == p.assignedTo.value
    ensures p.createdBy.Some? ==> r.createdBy == p.createdBy.value
    ensures r.createdAt == t.createdAt && r.updatedAt == now
  {
    Task(Pick(p.title, t.title),
         if p.description.Some? then p.description else t.description,
         if p.dueDate.Some? then Some(lib.toDate(p.dueDate.value)) else t.dueDate,
         Pick(p.priority, t.priority),
         Pick(p.status, t.status),
         Pick(p.assignedTo, t.assignedTo),
         Pick(p.createdBy, t.createdBy),
         t.createdAt, now)
  }

  /** Applying the same update twice leaves what applying it once leaves. */
  lemma MergeIdempotent(t: Task, p: Patch, now: int, lib: Primitives)
    ensures Merge(Merge(t, p, now, lib), p, now, lib) == Merge(t, p, now, lib)
  {
  }

  /** Update permission, checked on the stored record: an Admin, the
      assignee or the creator. */
  predicate MayUpdate(caller: Claims, t: Task)
    ensures caller.role == Admin ==> MayUpdate(caller, t)
    ensures t.assignedTo == caller.id || t.createdBy == caller.id ==> MayUpdate(caller, t)
    ensures MayUpdate(caller, t) && caller.role != Admin ==> t.assignedTo == caller.id || t.createdBy == caller.id
  {
    caller.role == Admin || t.assignedTo == caller.id || t.createdBy == caller.id
  }

  /** Delete permission: an Admin or the creator. */
  predicate MayDelete(caller: Claims, t: Task)
    ensures caller.role == Admin ==> MayDelete(caller, t)
    ensures MayDelete(caller, t) && caller.role != Admin ==> t.createdBy == caller.id
    ensures t.assignedTo == caller.id && t.createdBy != caller.id && caller.role != Admin ==> !MayDelete(caller, t)
  {
    caller.role == Admin || t.createdBy == caller.id
  }

  /** The notification type of an update: `TASK_ASSIGNED` exactly when a
      non-empty `assignedTo` differing from the stored one is supplied. */
  function UpdateKind(t: Task, p: Patch): (k: N.Kind)
    ensures k == N.TaskAssigned <==> Filled(p.assignedTo) && p.assignedTo.value != t.assignedTo
    ensures k != N.TaskAssigned ==> k == N.TaskStatusUpdate
  {
    if Filled(p.assignedTo) && p.assignedTo.value != t.assignedTo then N.TaskAssigned
    else N.TaskStatusUpdate
  }

  /** Whether `findById(id)` finds a document: the id must be a valid
      ObjectId and be stored. */
  predicate Found(s: Store, id: Id, lib: Primitives)
    ensures Found(s, id, lib) ==> id in s.docs
    ensures StoreValid(s) && Found(s, id, lib) ==> id in s.order
    ensures !lib.isObjectId(id) ==> !Found(s, id, lib)
  {
    lib.isObjectId(id) && id in s.docs
  }

  /** `updateTask`. */
  function UpdateOutcome(s: Store, caller: Claims, id: Id, p: Patch, now: int,
                         socketReady: bool, lib: Primitives): (o: Outcome)
    requires StoreValid(s)
    ensures StoreValid(o.store)
    ensures !Found(s, id, lib) ==> o == Refused(s, 404, Msg(TASK_NOT_FOUND))
    ensures Found(s, id, lib) && !MayUpdate(caller, s.docs[id])
            ==> o == Refused(s, 403, Msg(UPDATE_FORBIDDEN))
    ensures Found(s, id, lib) && MayUpdate(caller, s.docs[id]) && !PatchCasts(p, lib)
            ==> o == Refused(s, 500, Plain(UPDATE_FAILED))
    ensures o.store != s ==>
              && Found(s, id, lib) && MayUpdate(caller, s.docs[id]) && PatchCasts(p, lib)
              && o.store == Store(s.docs[id := Merge(s.docs[id], p, now, lib)], s.order)
    ensures Found(s, id, lib) && MayUpdate(caller, s.docs[id]) && PatchCasts(p, lib) ==>
              var t' := Merge(s.docs[id], p, now, lib);
              && o.store.docs == s.docs[id := t']
              && (socketReady ==>
                    && o.response == Response(200, TaskJson(id, t'))
                    && o.events == [Event("task:updated", WithTask(id, t'))]
                    && o.notes == [N.Dispatch(UpdateKind(s.docs[id], p), N.TaskRef(id, Some(t'.title)), t'.assignedTo)])
              && (!socketReady ==>
                    o.response == Response(500, Plain(UPDATE_FAILED)) && o.events == [] && o.notes == [])
  {
    if !lib.isObjectId(id) then Refused(s, 404, Msg(TASK_NOT_FOUND))
    else if id !in s.docs then Refused(s, 404, Msg(TASK_NOT_FOUND))
    else
      var t := s.docs[id];
      if !MayUpdate(caller, t) then Refused(s, 403, Msg(UPDATE_FORBIDDEN))
      else if !PatchCasts(p, lib) then Refused(s, 500, Plain(UPDATE_FAILED))
      else
        var t' := Merge(t, p, now, lib);
        var s' := Store(s.docs[id := t'], s.order);
        if !socketReady then Outcome(Response(500, Plain(UPDATE_FAILED)), s', [], [])
        else Outcome(Response(200, TaskJson(id, t')), s',
                     [Event("task:updated", WithTask(id, t'))],
                     [N.Dispatch(UpdateKind(t, p), N.TaskRef(id, Some(t'.title)), t'.assignedTo)])
  }

  // ---------------------------------------------------------------- delete

  /** `deleteTask`. */
  function DeleteOutcome(s: Store, caller: Claims, id: Id, socketReady: bool, lib: Primitives): (o: Outcome)
    requires StoreValid(s)
    ensures StoreValid(o.store)
    ensures !Found(s, id, lib) ==> o == Refused(s, 404, Msg(TASK_NOT_FOUND))
    ensures Found(s, id, lib) && !MayDelete(caller, s.docs[id])
            ==> o == Refused(s, 403, Msg(DELETE_FORBIDDEN))
    ensures Found(s, id, lib) && MayDelete(caller, s.docs[id]) ==>
              && o.store.docs == s.docs - {id}
              && id !in o.store.order
              && (socketReady ==>
                    && o.response == Response(200, Msg(TASK_REMOVED))
                    && o.events == [Event("task:deleted", WithTaskId(id))]
                    && o.notes == [N.Dispatch(N.TaskDeleted, N.TaskRef(id, None), s.docs[id].assignedTo)])
              && (!socketReady ==>
                    o.response == Response(500, Plain(DELETE_FAILED)) && o.events == [] && o.notes == [])
  {
    if !lib.isObjectId(id) then Refused(s, 404, Msg(TASK_NOT_FOUND))
    else if id !in s.docs then Refused(s, 404, Msg(TASK_NOT_FOUND))
    else
      var t := s.docs[id];
      if !MayDelete(caller, t) then Refused(s, 403, Msg(DELETE_FORBIDDEN))
      else
        var s' := Store(s.docs - {id}, Without(s.order, id));
        if !socketReady then Outcome(Response(500, Plain(DELETE_FAILED)), s', [], [])
        else Outcome(Response(200, Msg(TASK_REMOVED)), s',
                     [Event("task:deleted", WithTaskId(id))],
                     [N.Dispatch(N.TaskDeleted, N.TaskRef(id, None), t.assignedTo)])
  }

  // ---------------------------------------------------------------- assign

  /** `assignTask`; `userId` is the body's `userId`, None when absent. */
  function AssignOutcome(s: Store, id: Id, userId: Option<string>, now: int,
                         socketReady: bool, lib: Primitives): (o: Outcome)
    requires StoreValid(s)
    ensures StoreValid(o.store)
    ensures !lib.isObjectId(id) || userId.None? || !lib.isObjectId(userId.value)
            ==> o == Refused(s, 400, Msg(INVALID_IDS))
    ensures lib.isObjectId(id) && userId.Some? && lib.isObjectId(userId.value) && id !in s.docs
            ==> o == Refused(s, 404, Msg(TASK_NOT_FOUND))
    ensures Found(s, id, lib) && userId.Some? && lib.isObjectId(userId.value) ==>
              var t' := s.docs[id].(assignedTo := userId.value, updatedAt := now);
              && o.store == Store(s.docs[id := t'], s.order)
              && (socketReady ==>
                    && o.response == Response(200, TaskJson(id, t'))
                    && o.events == [Event("task:assigned", WithTask(id, t'))]
                    && o.notes == [N.Dispatch(N.TaskAssigned, N.TaskRef(id, Some(t'.title)), userId.value)])
              && (!socketReady ==>
                    o.response == Response(500, Plain(ASSIGN_FAILED)) && o.events == [] && o.notes == [])
  {
    if !lib.isObjectId(id) || userId.None? || !lib.isObjectId(userId.value) then
      Refused(s, 400, Msg(INVALID_IDS))
    else if id !in s.docs then Refused(s, 404, Msg(TASK_NOT_FOUND))
    else
      var t' := s.docs[id].(assignedTo := userId.value, updatedAt := now);
      var s' := Store(s.docs[id := t'], s.order);
      if !socketReady then Outcome(Response(500, Plain(ASSIGN_FAILED)), s', [], [])
      else Outcome(Response(200, TaskJson(id, t')), s',
                   [Event("task:assigned", WithTask(id, t'))],
                   [N.Dispatch(N.TaskAssigned, N.TaskRef(id, Some(t'.title)), userId.value)])
  }

  // ---------------------------------------------------------------- policy facts

  /** Whoever sees a task in the list may update it, and whoever may delete
      it may update it. */
  lemma PermissionsNest(caller: Claims, t: Task)
    ensures RoleVisible(caller, t) ==> MayUpdate(caller, t)
    ensures MayDelete(caller, t) ==> MayUpdate(caller, t)
  {
  }

  /** The converse fails for a User: a User who created a task assigned to
      someone else may update it, yet the list never shows it to them. */
  lemma UserUpdatesUnlistedTask()
    ensures var caller := Claims("u1", User);
            var t := Task("t", None, None, "Low", "Pending", "u2", "u1", 0, 0);
            MayUpdate(caller, t) && !RoleVisible(caller, t)
  {
  }

  /** The ids a caller lists: stored, visible to the caller's role and
      passing the caller's own conditions. */
  ghost function ListedIds(docs: map<Id, Task>, caller: Claims, p: ListParams, lib: Primitives): set<Id> {
    set id | id in docs && RoleVisible(caller, docs[id]) && CallerFilter(p, docs[id], lib)
  }

  const NO_PARAMS: ListParams := ListParams(None, None, None, None, None, None, None)

  /** A task just created is listed to its assignee, whatever the assignee's
      role, when they list without conditions. */
  lemma {:induction false} CreatedTaskListedToAssignee(s: Store, caller: Claims, b: CreateBody, newId: Id,
                                                       now: int, socketReady: bool, lib: Primitives, role: Role)
    requires StoreValid(s) && CreateSaves(s, b, newId, lib)
    ensures var s' := CreateOutcome(s, caller, b, newId, now, socketReady, lib).store;
            newId in ListedIds(s'.docs, Claims(b.assignedTo.value, role), NO_PARAMS, lib)
  {
    var s' := CreateOutcome(s, caller, b, newId, now, socketReady, lib).store;
    assert s'.docs[newId] == CreatedTask(b, caller, now, lib);
  }

  /** After a successful delete the id is gone: a later update or delete of
      it gets 404, and no list shows it. */
  lemma {:induction false} DeletedTaskIsGone(s: Store, caller: Claims, id: Id, socketReady: bool, lib: Primitives,
                                             other: Claims, p: Patch, q: Query, now: int)
    requires StoreValid(s) && Found(s, id, lib) && MayDelete(caller, s.docs[id])
    ensures var s' := DeleteOutcome(s, caller, id, socketReady, lib).store;
            && UpdateOutcome(s', other, id, p, now, socketReady, lib).response == Response(404, Msg(TASK_NOT_FOUND))
            && DeleteOutcome(s', other, id, socketReady, lib).response == Response(404, Msg(TASK_NOT_FOUND))
            && id !in IdsOf(Find(s'.docs, s'.order, q, lib))
  {
    var s' := DeleteOutcome(s, caller, id, socketReady, lib).store;
    assert id !in s'.docs;
    FindSelectsMatching(s'.docs, s'.order, q, lib);
  }

  /** Assignment followed by listing: the new assignee, listing as a User,
      sees the task. */
  lemma {:induction false} AssignedTaskListedToAssignee(s: Store, id: Id, userId: string, now: int,
                                                        socketReady: bool, lib: Primitives)
    requires StoreValid(s) && Found(s, id, lib) && lib.isObjectId(userId)
    ensures var s' := AssignOutcome(s, id, Some(userId), now, socketReady, lib).store;
            id in ListedIds(s'.docs, Claims(userId, User), NO_PARAMS, lib)
  {
    var s' := AssignOutcome(s, id, Some(userId), now, socketReady, lib).store;
    assert s'.docs[id].assignedTo == userId;
  }

  // ---------------------------------------------------------------- service

  /** The controller's state: the task collection, whether the Socket.IO
      server was initialised, the events emitted and the notifications
      dispatched so far. */
  class TaskService {
    var docs: map<Id, Task>
    var order: seq<Id>
    var socketReady: bool
    var events: seq<Event>
    var outbox: seq<N.Dispatch>

    ghost predicate Valid()
      reads this
    {
      Lists(order, docs)
    }

    function State(): Store
      reads this
    {
      Store(docs, order)
    }

    constructor (socketReady: bool)
      ensures Valid() && docs == map[] && order == [] && events == [] && outbox == []
      ensures this.socketReady == socketReady
    {
      docs, order := map[], [];
      this.socketReady := socketReady;
      events, outbox := [], [];
    }

    method CreateTask(caller: Claims, b: CreateBody, newId: Id, now: int, lib: Primitives) returns (res: Response)
      requires Valid()
      modifies this
      ensures Valid() && socketReady == old(socketReady)
      ensures var o := CreateOutcome(old(State()), caller, b, newId, now, old(socketReady), lib);
              res == o.response && State() == o.store
              && events == old(events) + o.events && outbox == old(outbox) + o.notes
    {
      var errs := CreateErrors(b, lib);
      if errs != [] {
        return Response(400, Errors(errs));
      }
      if b.assignedTo.None? || newId in docs {
        return Response(500, Plain(CREATE_FAILED));
      }
      var t := CreatedTask(b, caller, now, lib);
      AppendKeepsLists(State(), newId, t);
      docs := docs[newId := t];
      order := order + [newId];
      if !socketReady {
        return Response(500, Plain(CREATE_FAILED));
      }
      events := events + [Event("task:created", WithTask(newId, t))];
      outbox := outbox + [N.Dispatch(N.TaskCreated, N.TaskRef(newId, b.title), b.assignedTo.value)];
      res := Response(201, TaskJson(newId, t));
    }

    /** `getTasks`: the caller's visible tasks passing their conditions,
      each once; a due-date bound that is not a date fails the query. */
    method GetTasks(caller: Claims, p: ListParams, lib: Primitives) returns (res: Response)
      requires Valid()
      ensures !ListCasts(p, lib) ==> res == Response(500, Plain(LIST_FAILED))
      ensures ListCasts(p, lib) ==>
                && res.status == 200 && res.body.TaskList?
                && (forall k :: 0 <= k < |res.body.items| ==>
                      var (id, t) := res.body.items[k];
                      id in docs && docs[id] == t && RoleVisible(caller, t) && CallerFilter(p, t, lib))
                && IdsOf(res.body.items) == ListedIds(docs, caller, p, lib)
                && DistinctIds(res.body.items)
    {
      var q, sort := BuildListQuery(caller, p, lib);
      if !ListCasts(p, lib) {
        return Response(500, Plain(LIST_FAILED));
      }
      var items := Find(docs, order, q, lib);
      FindSelectsMatching(docs, order, q, lib);
      assert MatchingIds(docs, q, lib) == ListedIds(docs, caller, p, lib);
      assert forall k :: 0 <= k < |items| ==> items[k] in items;
      res := Response(200, TaskList(items));
    }

    method UpdateTask(caller: Claims, id: Id, p: Patch, now: int, lib: Primitives) returns (res: Response)
      requires Valid()
      modifies this
      ensures Valid() && socketReady == old(socketReady)
      ensures var o := UpdateOutcome(old(State()), caller, id, p, now, old(socketReady), lib);
              res == o.response && State() == o.store
              && events == old(events) + o.events && outbox == old(outbox) + o.notes
    {
      if !lib.isObjectId(id) {
        return Response(404, Msg(TASK_NOT_FOUND));
      }
      if id !in docs {
        return Response(404, Msg(TASK_NOT_FOUND));
      }
      var t := docs[id];
      if !MayUpdate(caller, t) {
        return Response(403, Msg(UPDATE_FORBIDDEN));
      }
      var kind := UpdateKind(t, p);
      if !PatchCasts(p, lib) {
        return Response(500, Plain(UPDATE_FAILED));
      }
      var updated := Merge(t, p, now, lib);
      docs := docs[id := updated];
      if !socketReady {
        return Response(500, Plain(UPDATE_FAILED));
      }
      events := events + [Event("task:updated", WithTask(id, updated))];
      outbox := outbox + [N.Dispatch(kind, N.TaskRef(id, Some(updated.title)), updated.assignedTo)];
      res := Response(200, TaskJson(id, updated));
    }

    method DeleteTask(caller: Claims, id: Id, lib: Primitives) returns (res: Response)
      requires Valid()
      modifies this
      ensures Valid() && socketReady == old(socketReady)
      ensures var o := DeleteOutcome(old(State()), caller, id, old(socketReady), lib);
              res == o.response && State() == o.store
              && events == old(events) + o.events && outbox == old(outbox) + o.notes
    {
      if !lib.isObjectId(id) {
        return Response(404, Msg(TASK_NOT_FOUND));
      }
      if id !in docs {
        return Response(404, Msg(TASK_NOT_FOUND));
      }
      var t := docs[id];
      if !MayDelete(caller, t) {
        return Response(403, Msg(DELETE_FORBIDDEN));
      }
      var assignee := t.assignedTo;
      docs := docs - {id};
      order := Without(order, id);
      if !socketReady {
        return Response(500, Plain(DELETE_FAILED));
      }
      events := events + [Event("task:deleted", WithTaskId(id))];
      outbox := outbox + [N.Dispatch(N.TaskDeleted, N.TaskRef(id, None), assignee)];
      res := Response(200, Msg(TASK_REMOVED));
    }

    method AssignTask(id: Id, userId: Option<string>, now: int, lib: Primitives) returns (res: Response)
      requires Valid()
      modifies this
      ensures Valid() && socketReady == old(socketReady)
      ensures var o := AssignOutcome(old(State()), id, userId, now, old(socketReady), lib);
              res == o.response && State() == o.store
              && events == old(events) + o.events && outbox == old(outbox) + o.notes
    {
      if !lib.isObjectId(id) || userId.None? || !lib.isObjectId(userId.value) {
        return Response(400, Msg(INVALID_IDS));
      }
      if id !in docs {
        return Response(404, Msg(TASK_NOT_FOUND));
      }
      var updated := docs[id].(assignedTo := userId.value, updatedAt := now);
      docs := docs[id := updated];
      if !socketReady {
        return Response(500, Plain(ASSIGN_FAILED));
      }
      events := events + [Event("task:assigned", WithTask(id, updated))];
      outbox := outbox + [N.Dispatch(N.TaskAssigned, N.TaskRef(id, Some(updated.title)), userId.value)];
      res := Response(200, TaskJson(id, updated));
    }
  }
}

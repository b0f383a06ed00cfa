/** Task analytics (src/controllers/analyticsController.ts): the role filter,
    and one pass over the visible tasks that counts status and priority
    buckets, overdue and due-soon tasks, and a per-username leaderboard.
    Times are millisecond timestamps; "tomorrow" is `now` plus one day. */
module Analytics {
  import opened Common
  import opened Models
  import opened Library
  import opened TaskQuery

  const DAY_MS: int := 86400000

  /** `getTaskFilterByRole`: no condition for an Admin, the assignee for a
      User, creator or assignee for a Manager. */
  function FilterByRole(userId: Id, role: Role): (q: Query)
    ensures forall t: Task, lib: Primitives :: Matches(q, t, lib) <==> RoleVisible(Claims(userId, role), t)
  {
    var q := if role == User then EMPTY.(assignedTo := Some(userId)) else EMPTY;
    var q := if role == Manager then q.(anyOf := Some([CreatedBy(userId), AssignedTo(userId)])) else q;
    assert forall t: Task, lib: Primitives :: Matches(q, t, lib) <==> RoleVisible(Claims(userId, role), t) by {
      forall t: Task, lib: Primitives ensures Matches(q, t, lib) <==> RoleVisible(Claims(userId, role), t) {
        if role == Manager {
          var cs := [CreatedBy(userId), AssignedTo(userId)];
          assert ClauseHolds(cs[0], t) <==> t.createdBy == userId;
          assert ClauseHolds(cs[1], t) <==> t.assignedTo == userId;
        }
      }
    }
    q
  }

  /** What the pass reads of a task: the selected fields, with `assignedTo`
      populated to the assignee's username (None when no user has that id). */
  datatype Row = Row(status: string, priority: string, dueDate: Option<int>, assignee: Option<string>)

  /** `populate('assignedTo', 'username')` over a found task. */
  function RowOf(t: Task, usernames: map<Id, string>): (r: Row)
    ensures r.status == t.status && r.priority == t.priority && r.dueDate == t.dueDate
    ensures r.assignee.Some? <==> t.assignedTo in usernames
    ensures r.assignee.Some? ==> r.assignee.value == usernames[t.assignedTo]
  {
    Row(t.status, t.priority, t.dueDate,
        if t.assignedTo in usernames then Some(usernames[t.assignedTo]) else None)
  }

  function Rows(items: seq<(Id, Task)>, usernames: map<Id, string>): (rows: seq<Row>)
    ensures |rows| == |items|
    ensures forall k :: 0 <= k < |items| ==> rows[k] == RowOf(items[k].1, usernames)
  {
    seq(|items|, k requires 0 <= k < |items| => RowOf(items[k].1, usernames))
  }

  /** The conditions the pass counts by. */
  datatype Test =
    | StatusIs(status: string)
    | PriorityIs(priority: string)
    /** has a due date before `now` and is not `Completed` */
    | OverdueAt(now: int)
    /** has a due date after `now` and at most one day after it */
    | DueSoonAt(now: int)
    /** the assignee's username resolved and the leaderboard can hold it (see `Boardable`) */
    | OnBoard
    | AssignedUser(username: string)
    | CompletedBy(username: string)

  predicate Holds(test: Test, row: Row) {
    match test
    case StatusIs(s) => row.status == s
    case PriorityIs(p) => row.priority == p
    case OverdueAt(now) => row.dueDate.Some? && row.dueDate.value < now && row.status != "Completed"
    case DueSoonAt(now) => row.dueDate.Some? && now < row.dueDate.value <= now + DAY_MS
    case OnBoard => Filled(row.assignee) && Boardable(row.assignee.value)
    case AssignedUser(u) => Filled(row.assignee) && row.assignee.value == u
    case CompletedBy(u) => Filled(row.assignee) && row.assignee.value == u && row.status == "Completed"
  }

  /** The names of the properties every plain object inherits from
      `Object.prototype`. For such a name `!userTaskCounts[username]` is
      false, so the pass makes no entry and the increments land on the
      inherited value; the name never becomes an own key of the leaderboard. */
  const INHERITED: set<string> := {
    "constructor", "__proto__", "toString", "toLocaleString", "valueOf",
    "hasOwnProperty", "isPrototypeOf", "propertyIsEnumerable",
    "__defineGetter__", "__defineSetter__", "__lookupGetter__", "__lookupSetter__"}

  /** A username the leaderboard object can hold as its own key. */
  predicate Boardable(u: string) {
    u != "" && u !in INHERITED
  }

  /** How many rows pass a test. */
  function Count(rows: seq<Row>, test: Test): (n: nat)
    ensures n <= |rows|
    decreases |rows|
  {
    if rows == [] then 0
    else
      var init := rows[..|rows| - 1];
      assert forall k :: 0 <= k < |init| ==> init[k] == rows[k];
      Count(init, test) + (if Holds(test, rows[|rows| - 1]) then 1 else 0)
  }

  lemma CountStep(rows: seq<Row>, i: nat, test: Test)
    requires i < |rows|
    ensures Count(rows[..i + 1], test) == Count(rows[..i], test) + (if Holds(test, rows[i]) then 1 else 0)
  {
    assert rows[..i + 1][..i] == rows[..i];
  }

  /** A leaderboard entry. */
  datatype Counts = Counts(total: nat, completed: nat)

  /** The response body. */
  datatype Report = Report(
    total: nat,
    byStatus: map<string, nat>,
    byPriority: map<string, nat>,
    overdue: nat,
    dueSoon: nat,
    leaderboard: Option<map<string, Counts>>)

  /** The three status buckets and the three priority buckets. `Overdue` is
      a legal status with no bucket of its own. */
  function StatusBuckets(rows: seq<Row>): map<string, nat> {
    map["Pending" := Count(rows, StatusIs("Pending")),
        "In Progress" := Count(rows, StatusIs("In Progress")),
        "Completed" := Count(rows, StatusIs("Completed"))]
  }

  function PriorityBuckets(rows: seq<Row>): map<string, nat> {
    map["Low" := Count(rows, PriorityIs("Low")),
        "Medium" := Count(rows, PriorityIs("Medium")),
        "High" := Count(rows, PriorityIs("High"))]
  }

  /** `b` is the leaderboard of `rows`: one entry per resolved username that
      is not an inherited property name, holding how many rows it is
      assigned and how many of those are done. */
  ghost predicate IsBoard(b: map<string, Counts>, rows: seq<Row>) {
    && (forall u :: u in b <==> Boardable(u) && Count(rows, AssignedUser(u)) > 0)
    && (forall u :: u in b ==> b[u] == Counts(Count(rows, AssignedUser(u)), Count(rows, CompletedBy(u))))
  }

  /** The sum of the entries' totals. */
  ghost function SumTotals(b: map<string, Counts>): int
    decreases |b.Keys|
  {
    if b == map[] then 0
    else
      var u :| u in b;
      b[u].total + SumTotals(b - {u})
  }

  lemma {:induction false} SumTotalsRemove(b: map<string, Counts>, u: string)
    requires u in b
    ensures SumTotals(b) == b[u].total + SumTotals(b - {u})
    decreases |b.Keys|
  {
    var v :| v in b && SumTotals(b) == b[v].total + SumTotals(b - {v});
    if v != u {
      SumTotalsRemove(b - {v}, u);
      SumTotalsRemove(b - {u}, v);
      assert (b - {v}) - {u} == (b - {u}) - {v};
    }
  }

  lemma SumTotalsUpdate(b: map<string, Counts>, u: string, c: Counts)
    ensures SumTotals(b[u := c]) == SumTotals(b) - (if u in b then b[u].total else 0) + c.total
  {
    SumTotalsRemove(b[u := c], u);
    assert b[u := c] - {u} == b - {u};
    if u in b {
      SumTotalsRemove(b, u);
    } else {
      assert b - {u} == b;
    }
  }

  /** One more task in a dictionary of counters: its key, when present, goes up by one. */
  function Bump(m: map<string, nat>, key: string): (r: map<string, nat>)
    ensures r.Keys == m.Keys
  {
    if key in m then m[key := m[key] + 1] else m
  }

  lemma StatusBucketsStep(rows: seq<Row>, i: nat)
    requires i < |rows|
    ensures Bump(StatusBuckets(rows[..i]), rows[i].status) == StatusBuckets(rows[..i + 1])
  {
    CountStep(rows, i, StatusIs("Pending"));
    CountStep(rows, i, StatusIs("In Progress"));
    CountStep(rows, i, StatusIs("Completed"));
  }

  lemma PriorityBucketsStep(rows: seq<Row>, i: nat)
    requires i < |rows|
    ensures Bump(PriorityBuckets(rows[..i]), rows[i].priority) == PriorityBuckets(rows[..i + 1])
  {
    CountStep(rows, i, PriorityIs("Low"));
    CountStep(rows, i, PriorityIs("Medium"));
    CountStep(rows, i, PriorityIs("High"));
  }

  /** One more task on the leaderboard, when its assignee's username resolved
      and is not an inherited property name. */
  function Enter(b: map<string, Counts>, row: Row): (r: map<string, Counts>)
    ensures !Holds(OnBoard, row) ==> r == b
    ensures Holds(OnBoard, row) ==> r.Keys == b.Keys + {row.assignee.value}
    ensures forall v :: v in b && row.assignee != Some(v) ==> v in r && r[v] == b[v]
    ensures Holds(OnBoard, row) ==>
              var v := row.assignee.value;
              var before := if v in b then b[v].total else 0;
              var done := if v in b then b[v].completed else 0;
              r[v].total == before + 1
              && r[v].completed == (if row.status == "Completed" then done + 1 else done)
  {
    if Holds(OnBoard, row) then
      var u := row.assignee.value;
      var c := if u in b then b[u] else Counts(0, 0);
      b[u := Counts(c.total + 1, if row.status == "Completed" then c.completed + 1 else c.completed)]
    else b
  }

  /** Entering one row keeps the board's keys the boardable names assigned so far. */
  lemma BoardKeysStep(b: map<string, Counts>, rows: seq<Row>, i: nat, v: string)
    requires i < |rows| && IsBoard(b, rows[..i])
    ensures v in Enter(b, rows[i]) <==> Boardable(v) && Count(rows[..i + 1], AssignedUser(v)) > 0
  {
    CountStep(rows, i, AssignedUser(v));
    assert v in b <==> Boardable(v) && Count(rows[..i], AssignedUser(v)) > 0;
  }

  /** Entering one row keeps each entry's totals the counts so far. */
  lemma BoardEntryStep(b: map<string, Counts>, rows: seq<Row>, i: nat, v: string)
    requires i < |rows| && IsBoard(b, rows[..i]) && v in Enter(b, rows[i])
    ensures Enter(b, rows[i])[v] == Counts(Count(rows[..i + 1], AssignedUser(v)), Count(rows[..i + 1], CompletedBy(v)))
  {
    CountStep(rows, i, AssignedUser(v));
    CountStep(rows, i, CompletedBy(v));
    if v !in b {
      CompletedWithinAssigned(rows[..i], v);
    }
  }

  lemma BoardStep(b: map<string, Counts>, rows: seq<Row>, i: nat)
    requires i < |rows| && IsBoard(b, rows[..i]) && SumTotals(b) == Count(rows[..i], OnBoard)
    ensures IsBoard(Enter(b, rows[i]), rows[..i + 1])
    ensures SumTotals(Enter(b, rows[i])) == Count(rows[..i + 1], OnBoard)
  {
    var b' := Enter(b, rows[i]);
    forall v ensures v in b' <==> Boardable(v) && Count(rows[..i + 1], AssignedUser(v)) > 0 {
      BoardKeysStep(b, rows, i, v);
    }
    forall v | v in b'
      ensures b'[v] == Counts(Count(rows[..i + 1], AssignedUser(v)), Count(rows[..i + 1], CompletedBy(v)))
    {
      BoardEntryStep(b, rows, i, v);
    }
    BoardSumStep(b, rows, i);
  }

  /** Entering one row adds one to the sum of totals exactly when the row is boardable. */
  lemma BoardSumStep(b: map<string, Counts>, rows: seq<Row>, i: nat)
    requires i < |rows| && SumTotals(b) == Count(rows[..i], OnBoard)
    ensures SumTotals(Enter(b, rows[i])) == Count(rows[..i + 1], OnBoard)
  {
    CountStep(rows, i, OnBoard);
    var row := rows[i];
    if Holds(OnBoard, row) {
      var u := row.assignee.value;
      var c := if u in b then b[u] else Counts(0, 0);
      SumTotalsUpdate(b, u, Counts(c.total + 1, if row.status == "Completed" then c.completed + 1 else c.completed));
    }
  }

  /** The leaderboard the pass builds, entering the rows in order. */
  function BoardOf(rows: seq<Row>): map<string, Counts>
    decreases |rows|
  {
    if rows == [] then map[] else Enter(BoardOf(rows[..|rows| - 1]), rows[|rows| - 1])
  }

  /** The board built entry by entry is the leaderboard of the rows, and its
      totals add up to the rows whose assignee resolved. */
  lemma {:induction false} BoardOfIsBoard(rows: seq<Row>)
    ensures IsBoard(BoardOf(rows), rows)
    ensures SumTotals(BoardOf(rows)) == Count(rows, OnBoard)
    decreases |rows|
  {
    if rows != [] {
      var i := |rows| - 1;
      BoardOfIsBoard(rows[..i]);
      BoardStep(BoardOf(rows[..i]), rows, i);
      assert rows[..i + 1] == rows;
    }
  }

  /** A user named after an inherited property never appears on the
      leaderboard, however many tasks they hold. */
  lemma {:induction false} InheritedNameLeftOff(rows: seq<Row>, u: string)
    requires u in INHERITED
    ensures u !in BoardOf(rows)
  {
    BoardOfIsBoard(rows);
  }

  /** What the handler's report says of the rows it was computed from. */
  ghost predicate Summarises(r: Report, rows: seq<Row>, now: int, withBoard: bool) {
    && r.total == |rows|
    && r.byStatus == StatusBuckets(rows)
    && r.byPriority == PriorityBuckets(rows)
    && r.overdue == Count(rows, OverdueAt(now))
    && r.dueSoon == Count(rows, DueSoonAt(now))
    && (r.leaderboard.Some? <==> withBoard)
    && (withBoard ==> IsBoard(r.leaderboard.value, rows)
                      && SumTotals(r.leaderboard.value) == Count(rows, OnBoard))
  }

  lemma ReportOfRows(r: Report, rows: seq<Row>, now: int, withBoard: bool)
    requires r.total == |rows| && r.byStatus == StatusBuckets(rows) && r.byPriority == PriorityBuckets(rows)
    requires r.overdue == Count(rows, OverdueAt(now)) && r.dueSoon == Count(rows, DueSoonAt(now))
    requires r.leaderboard == if withBoard then Some(BoardOf(rows)) else None
    ensures Summarises(r, rows, now, withBoard)
  {
    BoardOfIsBoard(rows);
  }

  /** The `forEach` pass over the found tasks, updating the counters and the
      three dictionaries in place; the leaderboard is attached only when
      `withBoard` (the caller is an Admin or a Manager). */
  method Aggregate(rows: seq<Row>, now: int, withBoard: bool) returns (r: Report)
    ensures r.total == |rows| && r.byStatus == StatusBuckets(rows) && r.byPriority == PriorityBuckets(rows)
    ensures r.overdue == Count(rows, OverdueAt(now)) && r.dueSoon == Count(rows, DueSoonAt(now))
    ensures r.leaderboard == if withBoard then Some(BoardOf(rows)) else None
  {
    var byStatus: map<string, nat> := map["Pending" := 0, "In Progress" := 0, "Completed" := 0];
    var byPriority: map<string, nat> := map["Low" := 0, "Medium" := 0, "High" := 0];
    var overdue: nat, dueSoon: nat := 0, 0;
    var board: map<string, Counts> := map[];
    var i := 0;
    while i < |rows|
      invariant 0 <= i <= |rows|
      invariant byStatus == StatusBuckets(rows[..i])
      invariant byPriority == PriorityBuckets(rows[..i])
      invariant overdue == Count(rows[..i], OverdueAt(now))
      invariant dueSoon == Count(rows[..i], DueSoonAt(now))
      invariant board == BoardOf(rows[..i])
    {
      var row := rows[i];
      CountStep(rows, i, OverdueAt(now));
      CountStep(rows, i, DueSoonAt(now));
      StatusBucketsStep(rows, i);
      PriorityBucketsStep(rows, i);
      assert rows[..i + 1][..i] == rows[..i];
      byStatus := Bump(byStatus, row.status);
      byPriority := Bump(byPriority, row.priority);
      if row.dueDate.Some? && row.dueDate.value < now && row.status != "Completed" {
        overdue := overdue + 1;
      }
      if row.dueDate.Some? && row.dueDate.value > now && row.dueDate.value <= now + DAY_MS {
        dueSoon := dueSoon + 1;
      }
      board := Enter(board, row);
      i := i + 1;
    }
    assert rows[..i] == rows;
    r := Report(|rows|, byStatus, byPriority, overdue, dueSoon, if withBoard then Some(board) else None);

  }

  /** `getTaskAnalytics`: the report over the tasks the caller's role sees,
      with the leaderboard for Admins and Managers only. */
  method GetTaskAnalytics(docs: map<Id, Task>, order: seq<Id>, usernames: map<Id, string>,
                          caller: Claims, now: int, lib: Primitives) returns (r: Report)
    requires Lists(order, docs)
    ensures r.total == |set id | id in docs && RoleVisible(caller, docs[id])|
    ensures r.leaderboard.Some? <==> caller.role != User
    ensures Summarises(r, Rows(Find(docs, order, FilterByRole(caller.id, caller.role), lib), usernames),
                       now, caller.role != User)
  {
    var q := FilterByRole(caller.id, caller.role);
    var tasks := Find(docs, order, q, lib);
    FindSelectsMatching(docs, order, q, lib);
    assert MatchingIds(docs, q, lib) == set id | id in docs && RoleVisible(caller, docs[id]);
    var rows := Rows(tasks, usernames);
    r := Aggregate(rows, now, caller.role == Admin || caller.role == Manager);
    ReportOfRows(r, rows, now, caller.role != User);
  }

  // ---------------------------------------------------------------- bounds

  /** The status buckets never count more than the total, and count all of
      it exactly when every task's status is one of the three. */
  lemma {:induction false} StatusBucketsBound(rows: seq<Row>)
    ensures var n := Count(rows, StatusIs("Pending")) + Count(rows, StatusIs("In Progress"))
                     + Count(rows, StatusIs("Completed"));
            && n <= |rows|
            && (n == |rows| <==> forall k :: 0 <= k < |rows| ==> rows[k].status in ["Pending", "In Progress", "Completed"])
    decreases |rows|
  {
    if rows != [] {
      var init := rows[..|rows| - 1];
      StatusBucketsBound(init);
      assert forall k :: 0 <= k < |init| ==> init[k] == rows[k];
    }
  }

  /** The same for priorities: an update can store a priority outside the
      three. */
  lemma {:induction false} PriorityBucketsBound(rows: seq<Row>)
    ensures var n := Count(rows, PriorityIs("Low")) + Count(rows, PriorityIs("Medium"))
                     + Count(rows, PriorityIs("High"));
            && n <= |rows|
            && (n == |rows| <==> forall k :: 0 <= k < |rows| ==> rows[k].priority in PRIORITIES)
    decreases |rows|
  {
    if rows != [] {
      var init := rows[..|rows| - 1];
      PriorityBucketsBound(init);
      assert forall k :: 0 <= k < |init| ==> init[k] == rows[k];
    }
  }

  /** A task with status `Overdue` (a value the schema allows) is counted in
      the total and in no bucket, so the buckets then fall short of the total. */
  lemma OverdueStatusUncounted(r: Report, rows: seq<Row>, k: nat, now: int, withBoard: bool)
    requires Summarises(r, rows, now, withBoard)
    requires k < |rows| && rows[k].status == "Overdue"
    ensures r.byStatus.Keys == {"Pending", "In Progress", "Completed"}
    ensures r.byStatus["Pending"] + r.byStatus["In Progress"] + r.byStatus["Completed"] < r.total
  {
    StatusBucketsBound(rows);
    assert rows[k].status !in ["Pending", "In Progress", "Completed"];
  }

  /** Overdue and due soon never hold together, so together they count at
      most the total. */
  lemma {:induction false} OverdueDueSoonBound(rows: seq<Row>, now: int)
    ensures Count(rows, OverdueAt(now)) + Count(rows, DueSoonAt(now)) <= |rows|
    decreases |rows|
  {
    if rows != [] {
      OverdueDueSoonBound(rows[..|rows| - 1], now);
    }
  }

  /** A user's completed tasks are among their assigned tasks. */
  lemma {:induction false} CompletedWithinAssigned(rows: seq<Row>, u: string)
    ensures Count(rows, CompletedBy(u)) <= Count(rows, AssignedUser(u))
    decreases |rows|
  {
    if rows != [] {
      CompletedWithinAssigned(rows[..|rows| - 1], u);
    }
  }

  /** What the report promises: the buckets, overdue plus due soon, and the
      leaderboard's totals are all bounded by the number of tasks, and every
      entry's completed count is at most its total. */
  lemma ReportBounds(r: Report, rows: seq<Row>, now: int, withBoard: bool)
    requires Summarises(r, rows, now, withBoard)
    ensures r.byStatus["Pending"] + r.byStatus["In Progress"] + r.byStatus["Completed"] <= r.total
    ensures r.byPriority["Low"] + r.byPriority["Medium"] + r.byPriority["High"] <= r.total
    ensures r.overdue + r.dueSoon <= r.total
    ensures withBoard ==> SumTotals(r.leaderboard.value) <= r.total
    ensures withBoard ==> forall u :: u in r.leaderboard.value ==>
              r.leaderboard.value[u].completed <= r.leaderboard.value[u].total
  {
    StatusBucketsBound(rows);
    PriorityBucketsBound(rows);
    OverdueDueSoonBound(rows, now);
    if withBoard {
      forall u | u in r.leaderboard.value
        ensures r.leaderboard.value[u].completed <= r.leaderboard.value[u].total
      {
        CompletedWithinAssigned(rows, u);
      }
    }
  }

  // ---------------------------------------------------------------- scenario

  /** The three seeded tasks as the pass reads them, with `now` the time of
      the request and the dates one day either side of it: an overdue task
      and a due-soon task assigned to `user`, a completed one to `manager`. */
  function SeedRows(now: int): seq<Row> {
    [Row("In Progress", "High", Some(now - DAY_MS), Some("user")),
     Row("Pending", "Medium", Some(now + DAY_MS), Some("user")),
     Row("Completed", "Low", None, Some("manager"))]
  }

  /** The Admin's view of the seed: total 3, one task per bucket, one
      overdue and one due soon. */
  lemma {:induction false} SeedCounts(r: Report, now: int)
    requires Summarises(r, SeedRows(now), now, true)
    ensures r.total == 3 && r.overdue == 1 && r.dueSoon == 1
    ensures r.byStatus == map["Pending" := 1, "In Progress" := 1, "Completed" := 1]
    ensures r.byPriority == map["Low" := 1, "Medium" := 1, "High" := 1]
  {
    var rows := SeedRows(now);
    CountThree(rows, StatusIs("Pending"));
    CountThree(rows, StatusIs("In Progress"));
    CountThree(rows, StatusIs("Completed"));
    CountThree(rows, PriorityIs("Low"));
    CountThree(rows, PriorityIs("Medium"));
    CountThree(rows, PriorityIs("High"));
    CountThree(rows, OverdueAt(now));
    CountThree(rows, DueSoonAt(now));
  }

  /** The Admin's leaderboard of the seed: user 2/0, manager 1/1. */
  lemma {:induction false} SeedLeaderboard(r: Report, now: int)
    requires Summarises(r, SeedRows(now), now, true)
    ensures r.leaderboard == Some(map["user" := Counts(2, 0), "manager" := Counts(1, 1)])
  {
    var rows := SeedRows(now);
    var b := r.leaderboard.value;
    var want := map["user" := Counts(2, 0), "manager" := Counts(1, 1)];
    forall u ensures u in b <==> u in want {
      SeedAssigned(now, u);
    }
    SeedAssigned(now, "user");
    SeedAssigned(now, "manager");
    CountThree(rows, CompletedBy("user"));
    CountThree(rows, CompletedBy("manager"));
    assert b.Keys == want.Keys;
    assert b["user"] == want["user"] && b["manager"] == want["manager"];
    assert b == want;
  }

  lemma SeedAssigned(now: int, u: string)
    ensures Count(SeedRows(now), AssignedUser(u)) == if u == "user" then 2 else if u == "manager" then 1 else 0
  {
    CountThree(SeedRows(now), AssignedUser(u));
  }

  function Hit(test: Test, row: Row): nat {
    if Holds(test, row) then 1 else 0
  }

  lemma CountThree(rows: seq<Row>, test: Test)
    requires |rows| == 3
    ensures Count(rows, test) == Hit(test, rows[0]) + Hit(test, rows[1]) + Hit(test, rows[2])
  {
    var r2, r1 := rows[..2], rows[..1];
    assert rows[..|rows| - 1] == r2;
    assert Count(rows, test) == Count(r2, test) + Hit(test, rows[2]);
    assert r2[..|r2| - 1] == r1;
    assert Count(r2, test) == Count(r1, test) + Hit(test, rows[1]);
    assert r1[..|r1| - 1] == [];
    assert Count(r1, test) == Hit(test, rows[0]);
  }
}

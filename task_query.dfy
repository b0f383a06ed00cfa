/** The MongoDB query documents the task controllers build, what it means
    for a task to match one, and `Task.find(filter)` over the task store.
    Also the access policy's visibility rule, stated once as a predicate. */
module TaskQuery {
  import opened Common
  import opened Models
  import opened Library

  /** One branch of a `$or`. */
  datatype Clause = CreatedBy(creator: Id) | AssignedTo(assignee: Id)

  /** A filter document: `assignedTo`, `$or`, `status`, `priority`, `$text`
      and the `dueDate` bounds `$gte` / `$lte`. Absent means "no condition". */
  datatype Query = Query(
    assignedTo: Option<Id>,
    anyOf: Option<seq<Clause>>,
    status: Option<string>,
    priority: Option<string>,
    text: Option<string>,
    dueFrom: Option<int>,
    dueTo: Option<int>)

  const EMPTY: Query := Query(None, None, None, None, None, None, None)

  predicate ClauseHolds(c: Clause, t: Task) {
    match c
    case CreatedBy(u) => t.createdBy == u
    case AssignedTo(u) => t.assignedTo == u
  }

  /** MongoDB's reading of a filter: every present condition holds; a range
      condition on `dueDate` fails when the task has no due date. */
  predicate Matches(q: Query, t: Task, lib: Primitives)
    ensures q == EMPTY ==> Matches(q, t, lib)
  {
    && (q.assignedTo.Some? ==> t.assignedTo == q.assignedTo.value)
    && (q.anyOf.Some? ==> exists i :: 0 <= i < |q.anyOf.value| && ClauseHolds(q.anyOf.value[i], t))
    && (q.status.Some? ==> t.status == q.status.value)
    && (q.priority.Some? ==> t.priority == q.priority.value)
    && (q.text.Some? ==> lib.textMatches(q.text.value, t))
    && (q.dueFrom.Some? ==> t.dueDate.Some? && q.dueFrom.value <= t.dueDate.value)
    && (q.dueTo.Some? ==> t.dueDate.Some? && t.dueDate.value <= q.dueTo.value)
  }

  /** Dropping conditions from a filter keeps every task it matched. */
  lemma FewerConditionsMatchMore(q: Query, t: Task, lib: Primitives)
    requires Matches(q, t, lib)
    ensures Matches(q.(status := None, priority := None, text := None), t, lib)
    ensures Matches(q.(dueFrom := None, dueTo := None), t, lib)
    ensures Matches(q.(anyOf := None, assignedTo := None), t, lib)
  {
  }

  /** The access policy's visibility rule: a User sees the tasks assigned to
      them, a Manager those they created or are assigned, an Admin all. */
  predicate RoleVisible(caller: Claims, t: Task)
    ensures t.assignedTo == caller.id ==> RoleVisible(caller, t)
    ensures caller.role == Admin ==> RoleVisible(caller, t)
    ensures RoleVisible(caller, t) && caller.role != Admin ==>
              t.assignedTo == caller.id || (caller.role == Manager && t.createdBy == caller.id)
  {
    match caller.role
    case User => t.assignedTo == caller.id
    case Manager => t.createdBy == caller.id || t.assignedTo == caller.id
    case Admin => true
  }

  /** The ids of the stored tasks a filter selects. */
  ghost function MatchingIds(docs: map<Id, Task>, q: Query, lib: Primitives): set<Id> {
    set id | id in docs && Matches(q, docs[id], lib)
  }

  /** The ids appearing in a result. */
  ghost function IdsOf(r: seq<(Id, Task)>): set<Id> {
    set p | p in r :: p.0
  }

  /** No id appears twice. */
  predicate NoDup(s: seq<Id>) {
    forall a, b :: 0 <= a < b < |s| ==> s[a] != s[b]
  }

  predicate DistinctIds(r: seq<(Id, Task)>) {
    forall a, b :: 0 <= a < b < |r| ==> r[a].0 != r[b].0
  }

  /** `order` lists the stored documents, each once: the store's natural order. */
  predicate Lists(order: seq<Id>, docs: map<Id, Task>) {
    NoDup(order) && (forall id :: id in order ==> id in docs) && (forall id :: id in docs ==> id in order)
  }

  /** `Task.find(filter)`: the stored tasks the filter matches, paired with
      their ids, in the store's order `order`. */
  function Find(docs: map<Id, Task>, order: seq<Id>, q: Query, lib: Primitives): (r: seq<(Id, Task)>)
    ensures forall p :: p in r ==> p.0 in docs && docs[p.0] == p.1 && Matches(q, p.1, lib)
    ensures forall p :: p in r ==> p.0 in order
    ensures forall id :: id in order && id in docs && Matches(q, docs[id], lib) ==> (id, docs[id]) in r
    ensures NoDup(order) ==> DistinctIds(r)
    ensures |r| <= |order|
    decreases |order|
  {
    if order == [] then []
    else
      var id := order[0];
      var tail := Find(docs, order[1..], q, lib);
      assert forall p :: p in tail ==> p.0 in order[1..];
      if id in docs && Matches(q, docs[id], lib) then
        assert NoDup(order) ==> (forall p :: p in tail ==> p.0 != id) by {
          if NoDup(order) {
            forall p | p in tail ensures p.0 != id {
              var j :| 0 <= j < |order[1..]| && order[1..][j] == p.0;
              assert order[j + 1] == p.0;
            }
          }
        }
        [(id, docs[id])] + tail
      else tail
  }

  /** Over a listing of the whole store, `Find` returns exactly the matching
      tasks, each once. */
  lemma {:induction false} FindSelectsMatching(docs: map<Id, Task>, order: seq<Id>, q: Query, lib: Primitives)
    requires Lists(order, docs)
    ensures IdsOf(Find(docs, order, q, lib)) == MatchingIds(docs, q, lib)
    ensures DistinctIds(Find(docs, order, q, lib))
    ensures |Find(docs, order, q, lib)| == |MatchingIds(docs, q, lib)|
  {
    var r := Find(docs, order, q, lib);
    forall id | id in MatchingIds(docs, q, lib) ensures id in IdsOf(r) {
      assert (id, docs[id]) in r;
    }
    DistinctIdsCount(r);
  }

  /** Distinct ids: as many ids as entries. */
  lemma {:induction false} DistinctIdsCount(r: seq<(Id, Task)>)
    requires DistinctIds(r)
    ensures |IdsOf(r)| == |r|
  {
    if r != [] {
      DistinctTail(r);
      DistinctIdsCount(r[1..]);
      IdsOfCons(r);
    }
  }

  lemma IdsOfCons(r: seq<(Id, Task)>)
    requires r != []
    ensures IdsOf(r) == {r[0].0} + IdsOf(r[1..])
  {
    assert r == [r[0]] + r[1..];
  }

  /** Dropping the first entry keeps the ids distinct, and the first id is
      not among the rest. */
  lemma DistinctTail(r: seq<(Id, Task)>)
    requires r != [] && DistinctIds(r)
    ensures DistinctIds(r[1..]) && r[0].0 !in IdsOf(r[1..])
  {
    var tail := r[1..];
    assert forall k :: 0 <= k < |tail| ==> tail[k] == r[k + 1];
    forall p | p in tail ensures p.0 != r[0].0 {
      var j :| 0 <= j < |tail| && tail[j] == p;
      assert r[j + 1] == p;
    }
  }

  /** A sort specification: one field and a direction. */
  datatype SortSpec = SortSpec(field: string, descending: bool)
}

/** Every transaction is a sequence of legal row writes. */
module Steps {
  import opened Basics
  import opened Redaction
  import opened ChildModels
  import opened Transitions
  import opened Tables
  import opened Listing
  import opened Cascade
  import opened Protocol
  import opened Invariants
  import opened Growth

  /** The transaction leaves good tables that have only grown. */
  ghost predicate Safe(r: Redactor, db: Db, db': Db) {
    Good(r, db') && Later(db, db')
  }

  lemma SafeTrans(r: Redactor, a: Db, b: Db, c: Db)
    requires Safe(r, a, b) && Safe(r, b, c)
    ensures Safe(r, a, c)
  {
    hide Good, Later;
    LaterTrans(a, b, c);
  }

  lemma SafeRefl(r: Redactor, db: Db)
    requires Good(r, db)
    ensures Safe(r, db, db)
  {
    LaterRefl(db);
  }

  lemma SafeTasks(r: Redactor, db: Db, db': Db)
    requires Safe(r, db, db')
    ensures LaterTasks(db, db')
  {}

  // ----- Facts about one row -----

  lemma RowFacts(r: Redactor, db: Db, id: Id)
    requires Good(r, db) && id in db.tasks
    ensures RowAgrees(id, db.tasks[id]) && FlagAgrees(db.tasks[id])
    ensures RedactPayload(r, CreationPayload(db.tasks[id].snapshot)) == CreationPayload(db.tasks[id].snapshot)
    ensures TaskAt(db, id) == db.tasks[id].Task()
  {
    hide Founded, DependencyOrder, AttemptsAgree, HistoryDense, OutboxAgrees, ParallelismBounded;
  }

  lemma RewrittenFacts(r: Redactor, t: ChildTask, now: int)
    requires RedactPayload(r, CreationPayload(t)) == CreationPayload(t)
    ensures var u := Rewritten(r, t, now);
      && CreationPayload(u) == CreationPayload(t)
      && u == t.(revision := t.revision + 1, updatedAt := now,
                 result := RedactResultOption(r, t.result), reason := RedactOption(r, t.reason))
  {
    assert CreationPayload(RedactTask(r, Next(t, now))) == RedactPayload(r, CreationPayload(t));
  }

  /** A write of `id` touches no other row. */
  ghost predicate OthersKept(db: Db, db': Db, touched: set<Id>) {
    && db'.ids == db.ids && db'.tasks.Keys == db.tasks.Keys
    && (forall id :: id in db.tasks && id !in touched ==> db'.tasks[id] == db.tasks[id])
  }

  // ----- The block cascade -----

  /** A row once it has been blocked: one revision on, nothing else but status and reason. */
  ghost predicate NowBlocked(row: TaskRow, row': TaskRow, now: int) {
    && row'.status == Blocked && row'.revision == row.revision + 1 && row'.claim == None
    && row'.snapshot == row.Task().(status := Blocked, revision := row.revision + 1, updatedAt := now, reason := row'.snapshot.reason)
    && row'.snapshot.reason.Some?
  }

  ghost predicate EdgesBlockable(db: Db, edges: seq<(Id, Id)>) {
    && (forall i :: 0 <= i < |edges| ==> edges[i].0 in db.tasks && edges[i].1 in Blockable(db))
    && (forall i, j :: 0 <= i < j < |edges| ==> edges[i].1 != edges[j].1)
  }

  lemma BlockLegal(r: Redactor, db: Db, cause: Id, id: Id, actor: Name, now: int)
    requires Good(r, db) && cause in db.tasks && id in Blockable(db)
    ensures Legal(db, BlockedFor(db, cause, id, now), None, EventRow(MadeBlocked, actor, Some(cause), now))
    ensures NowBlocked(db.tasks[id], RowFor(db.tasks[id], BlockedFor(db, cause, id, now), None), now)
  {
    hide Good, BlockReason, RedactPayload, NoDuplicates, DepsCompleted, Startable;
    RowFacts(r, db, id);
  }

  /** The reason of a blocked task says which dependency ended, and as what. */
  ghost predicate NamesCause(reason: Option<string>, cause: Id) {
    exists s :: reason == Some("Dependency " + cause + " ended as " + StatusText(s) + ".")
  }

  lemma BlockedNames(db: Db, cause: Id, id: Id, now: int)
    requires cause in db.tasks && id in db.tasks
    ensures NamesCause(BlockedFor(db, cause, id, now).reason, cause)
  {
    assert BlockedFor(db, cause, id, now).reason ==
      Some("Dependency " + cause + " ended as " + StatusText(db.tasks[cause].status) + ".");
    hide StatusText;
  }

  /** `id` was blocked for `cause`: its row, and the event of its new revision. */
  ghost predicate BlockedFrom(db: Db, db': Db, cause: Id, id: Id, actor: Name, now: int) {
    && id in db.tasks && id in db'.tasks
    && NowBlocked(db.tasks[id], db'.tasks[id], now) && NamesCause(db'.tasks[id].snapshot.reason, cause)
    && var key := (id, db.tasks[id].revision + 1);
    && key in db'.events && db'.events[key] == EventRow(MadeBlocked, actor, Some(cause), now)
  }

  function Children(edges: seq<(Id, Id)>): set<Id> {
    set i | 0 <= i < |edges| :: edges[i].1
  }

  ghost predicate AllBlockedFrom(db: Db, db': Db, edges: seq<(Id, Id)>, actor: Name, now: int) {
    forall i :: 0 <= i < |edges| ==> BlockedFrom(db, db', edges[i].0, edges[i].1, actor, now)
  }

  function BlockOne(db: Db, cause: Id, id: Id, actor: Name, now: int): Db
    requires cause in db.tasks && id in db.tasks
  {
    Advance(db, BlockedFor(db, cause, id, now), None, EventRow(MadeBlocked, actor, Some(cause), now))
  }

  lemma BlockOneSafe(r: Redactor, db: Db, cause: Id, id: Id, actor: Name, now: int)
    requires Good(r, db) && cause in db.tasks && id in Blockable(db)
    ensures var mid := BlockOne(db, cause, id, actor, now);
      Safe(r, db, mid) && OthersKept(db, mid, {id}) && BlockedFrom(db, mid, cause, id, actor, now)
  {
    hide Good, Legal, Later, NowBlocked, NamesCause;
    BlockedNames(db, cause, id, now);
    BlockLegal(r, db, cause, id, actor, now);
    AdvanceGrows(r, db, BlockedFor(db, cause, id, now), None, EventRow(MadeBlocked, actor, Some(cause), now));
  }

  /** Blocking distinct blockable rows is safe, and blocks exactly those rows, once each. */
  lemma {:induction false} BlockRowsSafe(r: Redactor, db: Db, edges: seq<(Id, Id)>, actor: Name, now: int)
    requires Good(r, db) && EdgesBlockable(db, edges)
    ensures var db' := BlockRows(db, edges, actor, now);
      && Safe(r, db, db')
      && OthersKept(db, db', Children(edges))
      && AllBlockedFrom(db, db', edges, actor, now)
    decreases |edges|
  {
    if edges == [] {
      SafeRefl(r, db);
    } else {
      hide Good, Later, NowBlocked, BlockedFor, BlockedFrom, OthersKept, Advance;
      var (cause, id) := edges[0];
      assert cause in db.tasks && id in Blockable(db);
      var mid := BlockOne(db, cause, id, actor, now);
      var db' := BlockRows(mid, edges[1..], actor, now);
      assert BlockRows(db, edges, actor, now) == db';
      hide BlockOne, BlockRows;
      BlockOneSafe(r, db, cause, id, actor, now);
      EdgesStillBlockable(db, mid, edges);
      BlockRowsSafe(r, mid, edges[1..], actor, now);
      SafeTrans(r, db, mid, db');
      SafeTasks(r, mid, db');
      BlockRowsJoin(db, mid, db', edges, actor, now);
    }
  }

  lemma EdgesStillBlockable(db: Db, mid: Db, edges: seq<(Id, Id)>)
    requires edges != [] && EdgesBlockable(db, edges) && OthersKept(db, mid, {edges[0].1})
    ensures EdgesBlockable(mid, edges[1..])
    ensures edges[0].1 !in Children(edges[1..])
  {
    forall i | 0 <= i < |edges[1..]| ensures edges[1..][i].0 in mid.tasks && edges[1..][i].1 in Blockable(mid) {
      assert edges[1..][i] == edges[i + 1] && edges[0].1 != edges[i + 1].1;
      assert edges[i + 1].0 in db.tasks.Keys;
    }
  }

  lemma ChildrenSplit(edges: seq<(Id, Id)>)
    requires edges != []
    ensures Children(edges) == {edges[0].1} + Children(edges[1..])
  {
    forall id | id in Children(edges[1..]) ensures id in Children(edges) {
      var j :| 0 <= j < |edges[1..]| && edges[1..][j].1 == id;
      assert edges[j + 1].1 == id;
    }
    forall id | id in Children(edges) && id != edges[0].1 ensures id in Children(edges[1..]) {
      var j :| 0 <= j < |edges| && edges[j].1 == id;
      assert edges[1..][j - 1].1 == id;
    }
  }

  lemma OthersJoin(db: Db, mid: Db, db': Db, s: set<Id>, t: set<Id>)
    requires OthersKept(db, mid, s) && OthersKept(mid, db', t)
    ensures OthersKept(db, db', s + t)
  {
    forall id | id in db.tasks && id !in s + t ensures db'.tasks[id] == db.tasks[id] { assert id in mid.tasks.Keys; }
  }

  lemma BlockedFirst(db: Db, mid: Db, db': Db, cause: Id, id: Id, s: set<Id>, actor: Name, now: int)
    requires BlockedFrom(db, mid, cause, id, actor, now) && OthersKept(mid, db', s) && id !in s && LaterTasks(mid, db')
    ensures BlockedFrom(db, db', cause, id, actor, now)
  {
    hide NamesCause, NowBlocked, LaterRow;
    assert id in mid.tasks.Keys;
  }

  lemma BlockedLater(db: Db, mid: Db, db': Db, cause: Id, id: Id, first: Id, actor: Name, now: int)
    requires OthersKept(db, mid, {first}) && id != first && BlockedFrom(mid, db', cause, id, actor, now)
    ensures BlockedFrom(db, db', cause, id, actor, now)
  {
    hide NamesCause, NowBlocked;
    assert id in db.tasks.Keys;
  }

  lemma BlockRowsJoin(db: Db, mid: Db, db': Db, edges: seq<(Id, Id)>, actor: Name, now: int)
    requires edges != [] && EdgesBlockable(db, edges)
    requires OthersKept(db, mid, {edges[0].1}) && BlockedFrom(db, mid, edges[0].0, edges[0].1, actor, now)
    requires edges[0].1 !in Children(edges[1..])
    requires OthersKept(mid, db', Children(edges[1..])) && AllBlockedFrom(mid, db', edges[1..], actor, now)
    requires LaterTasks(mid, db')
    ensures OthersKept(db, db', Children(edges))
    ensures AllBlockedFrom(db, db', edges, actor, now)
  {
    hide OthersKept, BlockedFrom, LaterTasks, Blockable, Children;
    ChildrenSplit(edges);
    OthersJoin(db, mid, db', {edges[0].1}, Children(edges[1..]));
    BlockedFirst(db, mid, db', edges[0].0, edges[0].1, Children(edges[1..]), actor, now);
    forall i | 0 <= i < |edges| ensures BlockedFrom(db, db', edges[i].0, edges[i].1, actor, now) {
      if i > 0 {
        assert edges[1..][i - 1] == edges[i] && edges[0].1 != edges[i].1;
        BlockedLater(db, mid, db', edges[i].0, edges[i].1, edges[0].1, actor, now);
      }
    }
  }

  lemma DependentsFacts(db: Db, id: Id)
    requires NoDuplicates(db.ids) && forall i :: i in db.tasks ==> i in db.ids
    ensures NoDuplicates(Dependents(db, id))
    ensures forall d :: d in Dependents(db, id) <==> d in DependentSet(db, id)
  {
    PickedNoDuplicates(db.ids, DependentSet(db, id));
    SortedInOrder(CreationTimes(db), Scan(db, DependentSet(db, id)));
  }

  lemma GraphFacts(db: Db)
    requires NoDuplicates(db.ids) && forall i :: i in db.tasks ==> i in db.ids
    ensures forall y :: NoDuplicates(Rows(DependentGraph(db), y))
    ensures forall y, d :: d in Rows(DependentGraph(db), y) ==> y in db.tasks && d in DependentSet(db, y)
    ensures forall y, d :: y in db.tasks && d in DependentSet(db, y) ==> d in Rows(DependentGraph(db), y)
  {
    forall y | y in db.tasks
      ensures NoDuplicates(Dependents(db, y))
      ensures forall d :: d in Dependents(db, y) <==> d in DependentSet(db, y)
    {
      DependentsFacts(db, y);
    }
  }

  /** The blockable tasks that `ended` reaches through blockable dependents. */
  ghost function Reached(db: Db, ended: Id): set<Id> {
    set id | id in Blockable(db) && Reaches(DependentGraph(db), Blockable(db), ended, id)
  }

  /** `id` was blocked for a task it depends on, which is `ended` or was blocked with it. */
  ghost predicate BlockedWithin(db: Db, db': Db, ended: Id, id: Id, actor: Name, now: int) {
    exists cause ::
      && cause in db.tasks && id in DependentSet(db, cause)
      && (cause == ended || cause in Reached(db, ended))
      && BlockedFrom(db, db', cause, id, actor, now)
  }

  ghost predicate CausesWithin(db: Db, ended: Id, edges: seq<(Id, Id)>) {
    forall i :: 0 <= i < |edges| ==>
      && edges[i].0 in db.tasks && edges[i].1 in DependentSet(db, edges[i].0)
      && (edges[i].0 == ended || edges[i].0 in Reached(db, ended))
  }

  lemma CascadeEdges(db: Db, ended: Id)
    requires NoDuplicates(db.ids) && (forall i :: i in db.tasks ==> i in db.ids)
    requires Walk(DependentGraph(db), ended, Blockable(db)).Done?
    ensures var edges := Walk(DependentGraph(db), ended, Blockable(db)).edges;
      EdgesBlockable(db, edges) && Children(edges) == Reached(db, ended) && CausesWithin(db, ended, edges)
  {
    var g, p := DependentGraph(db), Blockable(db);
    var w := Walk(g, ended, p);
    GraphFacts(db);
    WalkClosure(g, ended, p);
    WalkEdges(g, ended, p);
    hide Walk, DependentGraph, Blockable, Reaches;
    assert p - w.left == Reached(db, ended);
    ChildrenReached(db, ended, w.edges);
  }

  lemma ChildrenReached(db: Db, ended: Id, edges: seq<(Id, Id)>)
    requires forall y, d :: d in Rows(DependentGraph(db), y) ==> y in db.tasks && d in DependentSet(db, y)
    requires EachOnce(edges, Reached(db, ended)) && FromBlocked(DependentGraph(db), ended, edges)
    ensures EdgesBlockable(db, edges) && Children(edges) == Reached(db, ended) && CausesWithin(db, ended, edges)
  {
    hide DependentSet, DependentGraph;
    assert Reached(db, ended) <= Blockable(db);
    hide Blockable, Reached;
    forall i | 0 <= i < |edges| ensures edges[i].1 in Reached(db, ended) {}
    forall id ensures id in Children(edges) <==> id in Reached(db, ended) {}
    forall i | 0 <= i < |edges| ensures edges[i].0 == ended || edges[i].0 in Reached(db, ended) {
      if edges[i].0 != ended {
        var j :| 0 <= j < i && edges[j].1 == edges[i].0;
      }
    }
  }

  /** A cascade that raises nothing blocks exactly the tasks it reaches, each once, and no other row. */
  lemma BlockDependentsSafe(r: Redactor, db: Db, ended: Id, actor: Name, now: int)
    requires Good(r, db) && BlockDependents(db, ended, actor, now).Ok?
    ensures var db' := BlockDependents(db, ended, actor, now).value;
      && Safe(r, db, db')
      && OthersKept(db, db', Reached(db, ended))
      && forall id :: id in Reached(db, ended) ==> BlockedWithin(db, db', ended, id, actor, now)
  {
    var edges := Walk(DependentGraph(db), ended, Blockable(db)).edges;
    IdsFacts(db);
    hide Good, Safe, NowBlocked, BlockedFrom, OthersKept, Walk, BlockRows, DependentGraph, Blockable, EdgesBlockable;
    CascadeEdges(db, ended);
    BlockRowsSafe(r, db, edges, actor, now);
    hide BlockDependents, NoDuplicates;
    BlockedByEdges(db, BlockRows(db, edges, actor, now), ended, edges, actor, now);
  }

  lemma BlockedByEdges(db: Db, db': Db, ended: Id, edges: seq<(Id, Id)>, actor: Name, now: int)
    requires Children(edges) == Reached(db, ended) && CausesWithin(db, ended, edges)
    requires AllBlockedFrom(db, db', edges, actor, now)
    ensures forall id :: id in Reached(db, ended) ==> BlockedWithin(db, db', ended, id, actor, now)
  {
    hide BlockedFrom, Reached, DependentSet;
    forall id | id in Reached(db, ended) ensures BlockedWithin(db, db', ended, id, actor, now) {
      assert id in Children(edges);
      var i :| 0 <= i < |edges| && edges[i].1 == id;
      assert BlockedFrom(db, db', edges[i].0, id, actor, now);
    }
  }

  lemma IdsFacts(db: Db)
    requires Inv(db)
    ensures NoDuplicates(db.ids) && forall i :: i in db.tasks <==> i in db.ids
  {}

  /** The cascade raises exactly when some row is overtaken, and then it is a revision conflict. */
  lemma BlockDependentsConflict(db: Db, ended: Id, actor: Name, now: int)
    requires Inv(db) && ended in db.tasks
    ensures BlockDependents(db, ended, actor, now).Err?
      <==> SomeOvertaken(DependentGraph(db), Blockable(db), Dependents(db, ended))
  {
    IdsFacts(db);
    GraphFacts(db);
    WalkConflict(DependentGraph(db), ended, Blockable(db));
  }

  // ----- The ready cascade -----

  /** A row once it has been woken: one revision on, with no reason to wait left. */
  ghost predicate NowReady(row: TaskRow, row': TaskRow) {
    && row.status == Pending && row'.status == Ready && row'.revision == row.revision + 1 && row'.claim == None
    && row'.snapshot == row.Task().(status := Ready, revision := row.revision + 1, updatedAt := row'.updatedAt, reason := None)
  }

  lemma ReadyLegal(r: Redactor, db: Db, id: Id, completed: Id, actor: Name, now: int)
    requires Good(r, db) && id in db.tasks && db.tasks[id].status == Pending && DepsCompleted(db, Deps(db, id))
    ensures MarkReady(TaskAt(db, id)).Ok?
    ensures var t := Next(MarkReady(TaskAt(db, id)).value, now);
      && Legal(db, t, None, EventRow(MadeReady, actor, Some(completed), now)) && t.id == id
      && NowReady(db.tasks[id], RowFor(db.tasks[id], t, None))
  {
    hide Good, RedactPayload, NoDuplicates, DepsCompleted, Startable;
    RowFacts(r, db, id);
  }

  function ReadyOne(db: Db, id: Id, completed: Id, actor: Name, now: int): Db
    requires id in db.tasks && MarkReady(TaskAt(db, id)).Ok?
  {
    Advance(db, Next(MarkReady(TaskAt(db, id)).value, now), None, EventRow(MadeReady, actor, Some(completed), now))
  }

  lemma ReadyOneSafe(r: Redactor, db: Db, id: Id, completed: Id, actor: Name, now: int)
    requires Good(r, db) && id in db.tasks && db.tasks[id].status == Pending && DepsCompleted(db, Deps(db, id))
    ensures MarkReady(TaskAt(db, id)).Ok?
    ensures var mid := ReadyOne(db, id, completed, actor, now);
      && Safe(r, db, mid) && OthersKept(db, mid, {id}) && id in mid.tasks && NowReady(db.tasks[id], mid.tasks[id])
  {
    hide Good, Legal, Later, DepsCompleted;
    ReadyLegal(r, db, id, completed, actor, now);
    AdvanceGrows(r, db, Next(MarkReady(TaskAt(db, id)).value, now), None, EventRow(MadeReady, actor, Some(completed), now));
  }

  /** The rows a ready cascade changes: those whose dependencies have all completed. */
  function Freed(db: Db, rows: seq<Id>): set<Id>
    requires forall id :: id in rows ==> id in db.tasks
  {
    set id | id in rows && DepsCompleted(db, Deps(db, id))
  }

  ghost predicate AllNowReady(db: Db, db': Db, ids: set<Id>) {
    forall id :: id in ids ==> id in db.tasks && id in db'.tasks && NowReady(db.tasks[id], db'.tasks[id])
  }

  ghost predicate AllPending(db: Db, rows: seq<Id>) {
    forall id :: id in rows ==> id in db.tasks && db.tasks[id].status == Pending
  }

  lemma FreedAfter(db: Db, mid: Db, rows: seq<Id>)
    requires rows != [] && NoDuplicates(rows) && AllPending(db, rows) && LaterTasks(db, mid)
    requires OthersKept(db, mid, {rows[0]}) && rows[0] in mid.tasks && NowReady(db.tasks[rows[0]], mid.tasks[rows[0]])
    ensures AllPending(mid, rows[1..]) && NoDuplicates(rows[1..])
    ensures Freed(mid, rows[1..]) == Freed(db, rows) - {rows[0]}
  {
    hide LaterRow;
    assert rows[0] !in rows[1..];
    CompletedKept(db, mid, rows[0]);
    forall id | id in rows[1..] ensures id in db.tasks && id in mid.tasks && mid.tasks[id] == db.tasks[id] {
      assert id in rows && id in db.tasks.Keys;
    }
    hide OthersKept, NoDuplicates, NowReady, LaterTasks;
    forall id ensures id in Freed(mid, rows[1..]) <==> id in Freed(db, rows) - {rows[0]} {
      assert id in rows <==> id == rows[0] || id in rows[1..];
      if id in rows[1..] { assert Deps(mid, id) == Deps(db, id); }
    }
  }

  lemma CompletedKept(db: Db, mid: Db, id: Id)
    requires OthersKept(db, mid, {id}) && id in db.tasks && id in mid.tasks
    requires db.tasks[id].status != Completed && mid.tasks[id].status != Completed
    ensures forall deps :: DepsCompleted(mid, deps) <==> DepsCompleted(db, deps)
  {
    forall d ensures HasStatus(mid, d, Completed) <==> HasStatus(db, d, Completed) {
      assert d in mid.tasks.Keys <==> d in db.tasks.Keys;
    }
  }

  lemma ReadyRowsUnfold(db: Db, rows: seq<Id>, completed: Id, actor: Name, now: int)
    requires AllPending(db, rows)
    ensures rows == [] ==> ReadyRows(db, rows, completed, actor, now) == Ok(db) && Freed(db, rows) == {}
    ensures rows != [] && !DepsCompleted(db, Deps(db, rows[0])) ==>
      && AllPending(db, rows[1..]) && Freed(db, rows) == Freed(db, rows[1..])
      && ReadyRows(db, rows, completed, actor, now) == ReadyRows(db, rows[1..], completed, actor, now)
    ensures rows != [] && DepsCompleted(db, Deps(db, rows[0])) && MarkReady(TaskAt(db, rows[0])).Ok? ==>
      && rows[0] in Freed(db, rows)
      && var mid := ReadyOne(db, rows[0], completed, actor, now);
      && (AllPending(mid, rows[1..]) ==>
            ReadyRows(db, rows, completed, actor, now) == ReadyRows(mid, rows[1..], completed, actor, now))
  {
    hide Advance, Next, DepsCompleted, TaskAt;
  }

  /** A ready cascade never raises, and readies exactly the listed rows whose dependencies have all completed. */
  lemma {:induction false} ReadyRowsSafe(r: Redactor, db: Db, rows: seq<Id>, completed: Id, actor: Name, now: int)
    requires Good(r, db) && NoDuplicates(rows) && AllPending(db, rows)
    ensures var o := ReadyRows(db, rows, completed, actor, now);
      && o.Ok? && Safe(r, db, o.value)
      && OthersKept(db, o.value, Freed(db, rows)) && AllNowReady(db, o.value, Freed(db, rows))
    decreases |rows|
  {
    hide *;
    ReadyRowsUnfold(db, rows, completed, actor, now);
    PendingPresent(db, rows);
    if rows == [] {
      SafeRefl(r, db);
      NoneReady(db);
    } else {
      var id := rows[0];
      PendingHead(db, rows);
      TailDistinct(rows);
      if !DepsCompleted(db, Deps(db, id)) {
        ReadyRowsSafe(r, db, rows[1..], completed, actor, now);
      } else {
        ReadyOneSafe(r, db, id, completed, actor, now);
        var mid := ReadyOne(db, id, completed, actor, now);
        SafeTasks(r, db, mid);
        StillGood(r, db, mid);
        FreedAfter(db, mid, rows);
        PendingPresent(mid, rows[1..]);
        ReadyRowsSafe(r, mid, rows[1..], completed, actor, now);
        var db' := ReadyRows(mid, rows[1..], completed, actor, now).value;
        SafeTrans(r, db, mid, db');
        ReadyJoin(db, mid, db', id, Freed(db, rows));
      }
    }
  }

  lemma NoneReady(db: Db)
    ensures OthersKept(db, db, {}) && AllNowReady(db, db, {})
  {}

  lemma StillGood(r: Redactor, db: Db, db': Db)
    requires Safe(r, db, db')
    ensures Good(r, db')
  {}

  lemma PendingHead(db: Db, rows: seq<Id>)
    requires rows != [] && AllPending(db, rows)
    ensures rows[0] in db.tasks && db.tasks[rows[0]].status == Pending
  {}

  lemma PendingPresent(db: Db, rows: seq<Id>)
    requires AllPending(db, rows)
    ensures AllPresent(db, rows) && forall id :: id in rows ==> id in db.tasks
  {}

  lemma ReadyJoin(db: Db, mid: Db, db': Db, id: Id, freed: set<Id>)
    requires id in freed && id in db.tasks && id in mid.tasks
    requires OthersKept(db, mid, {id}) && NowReady(db.tasks[id], mid.tasks[id])
    requires OthersKept(mid, db', freed - {id}) && AllNowReady(mid, db', freed - {id})
    ensures OthersKept(db, db', freed) && AllNowReady(db, db', freed)
  {
    assert db'.tasks.Keys == db.tasks.Keys;
    forall i | i in freed ensures i in db.tasks && i in db'.tasks && NowReady(db.tasks[i], db'.tasks[i]) {
      if i != id { assert i in mid.tasks && i in db'.tasks && NowReady(mid.tasks[i], db'.tasks[i]); assert i in db.tasks.Keys; }
    }
  }
}

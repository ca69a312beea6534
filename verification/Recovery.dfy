/**
 When a whole recovery is rejected.  `recover_expired` ends several attempts in one
 transaction, and the cascade below each works on what the cascades before it left.
 Whether one of them raises is read off the tables before the call.
 */
module Recovery {
  import opened Basics
  import opened Redaction
  import opened ChildModels
  import opened Tables
  import opened Cascade
  import opened Protocol
  import opened Invariants
  import opened Growth
  import opened Steps
  import opened Transactions
  import opened Conflicts
  import opened Frames

  // ----- One end -----

  lemma RunningUnblockable(db: Db, id: Id)
    requires HasStatus(db, id, Running)
    ensures Blockable(db) - {id} == Blockable(db) && id in db.tasks
  {}

  lemma GraphRows(db: Db, id: Id)
    requires id in db.tasks
    ensures Rows(DependentGraph(db), id) == Dependents(db, id)
  {
    hide Dependents;
  }

  lemma RowsDistinct(r: Redactor, db: Db)
    requires Good(r, db)
    ensures forall y :: NoDuplicates(Rows(DependentGraph(db), y))
  {
    hide Inv, Redacted;
    IdsFacts(db);
    hide DependentGraph;
    GraphFacts(db);
  }

  /** Ending a running task with UNKNOWN raises exactly when the traversal below it conflicts. */
  lemma UnknownRaises(r: Redactor, db: Db, id: Id, actor: Name, now: int)
    requires Good(r, db) && HasStatus(db, id, Running) && id in db.tasks
    ensures LegalEnd(db, UnknownTask(db, r, id, now), actor, now)
    ensures EndAndSettle(db, UnknownTask(db, r, id, now), actor, now).Err? <==>
      Walk(DependentGraph(db), id, Blockable(db)).Conflict?
  {
    hide Good, LegalEnd, EndAndSettle, UnknownTask, Walk, SomeOvertaken, DependentGraph, Blockable, Dependents, Rows;
    UnknownLegal(r, db, id, actor, now);
    UnknownStatus(db, r, id, now);
    EndRaisesExactly(r, db, UnknownTask(db, r, id, now), actor, now);
    RunningUnblockable(db, id);
    GraphRows(db, id);
    RowsDistinct(r, db);
    WalkConflict(DependentGraph(db), id, Blockable(db));
  }

  lemma ReachedIsTaken(r: Redactor, mid: Db, id: Id, left: set<Id>)
    requires Walk(DependentGraph(mid), id, Blockable(mid)).Done?
    requires left == Walk(DependentGraph(mid), id, Blockable(mid)).left
    ensures Blockable(mid) - Reached(mid, id) == left
  {
    hide Walk, DependentGraph, Blockable, Reaches;
    WalkClosure(DependentGraph(mid), id, Blockable(mid));
  }

  lemma BlockableKept(mid: Db, after: Db, taken: set<Id>)
    requires OthersKept(mid, after, taken)
    requires forall id :: id in taken ==> id in after.tasks && after.tasks[id].status == Blocked
    ensures Blockable(after) == Blockable(mid) - taken
  {
    forall id ensures id in Blockable(after) <==> id in Blockable(mid) - taken {
      assert id in after.tasks.Keys <==> id in mid.tasks.Keys;
    }
  }

  lemma ReachedBlocked(mid: Db, after: Db, id: Id, actor: Name, now: int)
    requires forall b :: b in Reached(mid, id) ==> BlockedWithin(mid, after, id, b, actor, now)
    ensures forall b :: b in Reached(mid, id) ==> b in after.tasks && after.tasks[b].status == Blocked
  {
    hide Reached, DependentSet;
    forall b | b in Reached(mid, id) ensures b in after.tasks && after.tasks[b].status == Blocked {
      var cause :| BlockedFrom(mid, after, cause, b, actor, now);
    }
  }

  /** After an end that raised nothing: the same graph, and what its traversal left. */
  lemma UnknownLeaves(r: Redactor, db: Db, id: Id, actor: Name, now: int)
    requires Good(r, db) && HasStatus(db, id, Running) && id in db.tasks
    requires LegalEnd(db, UnknownTask(db, r, id, now), actor, now)
    requires EndAndSettle(db, UnknownTask(db, r, id, now), actor, now).Ok?
    requires Walk(DependentGraph(db), id, Blockable(db)).Done?
    ensures var after := EndAndSettle(db, UnknownTask(db, r, id, now), actor, now).value;
      && DependentGraph(after) == DependentGraph(db)
      && Blockable(after) == Walk(DependentGraph(db), id, Blockable(db)).left
  {
    hide *;
    var t := UnknownTask(db, r, id, now);
    var mid, after := AfterEnd(db, t, actor, now), EndAndSettle(db, t, actor, now).value;
    UnknownStatus(db, r, id, now);
    RunningUnblockable(db, id);
    AfterEndGood(r, db, t, actor, now);
    EndKeepsGraph(db, t, actor, now);
    SettleBlocks(mid, t, actor, now);
    BlockDependentsSafe(r, mid, id, actor, now);
    ReachedIsTaken(r, mid, id, Walk(DependentGraph(mid), id, Blockable(mid)).left);
    ReachedBlocked(mid, after, id, actor, now);
    BlockableKept(mid, after, Reached(mid, id));
    SafeTasks(r, mid, after);
    KeptRows(mid, after, Reached(mid, id));
    GraphAfter(mid, after);
  }

  lemma SettleBlocks(mid: Db, t: ChildTask, actor: Name, now: int)
    requires HasStatus(mid, t.id, t.status) && t.status == Unknown
    ensures Settle(mid, t.id, actor, now) == BlockDependents(mid, t.id, actor, now)
  {
    hide BlockDependents;
  }

  lemma KeptRows(mid: Db, after: Db, s: set<Id>)
    requires OthersKept(mid, after, s)
    ensures after.ids == mid.ids && after.tasks.Keys == mid.tasks.Keys
  {}

  // ----- The whole recovery -----

  lemma WalksUnfold(g: Graph, xs: seq<Id>, p: set<Id>)
    ensures xs == [] ==> !WalksConflict(g, xs, p)
    ensures xs != [] && Walk(g, xs[0], p).Conflict? ==> WalksConflict(g, xs, p)
    ensures xs != [] && Walk(g, xs[0], p).Done? ==>
      (WalksConflict(g, xs, p) <==> WalksConflict(g, xs[1..], Walk(g, xs[0], p).left))
  {
    hide Walk;
  }

  lemma GatheredErrs(a: seq<ChildTask>, o: Outcome<(Db, seq<ChildTask>)>)
    ensures Gathered(a, o).Err? <==> o.Err?
  {}

  lemma {:induction false} RecoverRowsRaise(r: Redactor, db: Db, rows: seq<Id>, actor: Name, now: int)
    requires Good(r, db) && NoDuplicates(rows) && AllRunning(db, rows) && AllPresent(db, rows)
    ensures RecoverRows(db, r, rows, actor, now).Err? <==> WalksConflict(DependentGraph(db), rows, Blockable(db))
    decreases |rows|
  {
    hide *;
    WalksUnfold(DependentGraph(db), rows, Blockable(db));
    if rows == [] {
      RecoverNothing(db, r, rows, actor, now);
    } else {
      FirstRuns(db, rows);
      UnknownRaises(r, db, rows[0], actor, now);
      RecoverRowsStep(db, r, rows, actor, now);
      var t := UnknownTask(db, r, rows[0], now);
      if EndAndSettle(db, t, actor, now).Ok? {
        var after := EndAndSettle(db, t, actor, now).value;
        RecoverStep(r, db, rows, actor, now);
        UnknownLeaves(r, db, rows[0], actor, now);
        RecoverRowsRaise(r, after, rows[1..], actor, now);
        GatheredErrs([t], RecoverRows(after, r, rows[1..], actor, now));
      }
    }
  }

  lemma RecoverErrs(db: Db, r: Redactor, actor: Name, now: int)
    requires AllPresent(db, ExpiredRows(db, now))
    ensures RecoverExpired(db, r, actor, now).out.Err? <==> RecoverRows(db, r, ExpiredRows(db, now), actor, now).Err?
  {
    hide RecoverRows;
  }

  /** Recovery raises if and only if some waiting task is overtaken below the first of the
      expired tasks, in the order they are listed, that leads to it.  Both the order and the
      graph are those before the call. */
  lemma RecoverRaisesExactly(r: Redactor, db: Db, actor: Name, now: int)
    requires Good(r, db)
    ensures RecoverExpired(db, r, actor, now).out.Err? <==>
      exists i: nat, b: Id :: Caught(DependentGraph(db), Blockable(db), ExpiredRows(db, now), i, b)
  {
    hide Good, Caught, DependentGraph, Blockable, ExpiredRows, RecoverRows, RecoverExpired, NoDuplicates, AllRunning, AllPresent;
    ExpiredRowsGood(r, db, now);
    RecoverErrs(db, r, actor, now);
    RecoverRowsRaise(r, db, ExpiredRows(db, now), actor, now);
    RowsDistinct(r, db);
    WalksConflictExactly(DependentGraph(db), ExpiredRows(db, now), Blockable(db));
  }

  lemma CaughtTangles(db: Db, rows: seq<Id>, i: nat, b: Id)
    requires AllRunning(db, rows) && Caught(DependentGraph(db), Blockable(db), rows, i, b)
    ensures Tangled(db, rows[i])
  {
    assert rows[i] in rows;
    RunningUnblockable(db, rows[i]);
    GraphRows(db, rows[i]);
    hide Overtaken, DependentGraph, Blockable, Dependents, Rows;
  }

  /** If no expired task is tangled, recovery succeeds, however the expired tasks share dependents. */
  lemma UntangledRecovers(r: Redactor, db: Db, actor: Name, now: int)
    requires Good(r, db) && forall id :: id in ExpiredSet(db, now) ==> !Tangled(db, id)
    ensures RecoverExpired(db, r, actor, now).out.Ok?
  {
    var rows := ExpiredRows(db, now);
    hide Good, Caught, Tangled, DependentGraph, Blockable, ExpiredRows, ExpiredSet, RecoverExpired, NoDuplicates, AllRunning, AllPresent;
    ExpiredRowsGood(r, db, now);
    ExpiredListed(r, db, now);
    RecoverRaisesExactly(r, db, actor, now);
    forall i: nat, b: Id ensures !Caught(DependentGraph(db), Blockable(db), rows, i, b) {
      if Caught(DependentGraph(db), Blockable(db), rows, i, b) {
        CaughtAt(db, rows, i, b);
        CaughtTangles(db, rows, i, b);
      }
    }
  }

  lemma CaughtAt(db: Db, rows: seq<Id>, i: nat, b: Id)
    requires Caught(DependentGraph(db), Blockable(db), rows, i, b)
    ensures i < |rows| && rows[i] in rows
  {}

  lemma ExpiredListed(r: Redactor, db: Db, now: int)
    requires Good(r, db)
    ensures forall id :: id in ExpiredRows(db, now) <==> id in ExpiredSet(db, now)
  {
    hide Inv, Redacted;
    IdsFacts(db);
    hide NoDuplicates, ExpiredSet;
    ExpiredRowsFacts(db, now);
  }

  /** A tangle below the first expired task stops the whole recovery, at every time. */
  lemma RecoveryStops(r: Redactor, db: Db, actor: Name, now: int)
    requires Good(r, db) && ExpiredRows(db, now) != [] && Tangled(db, ExpiredRows(db, now)[0])
    ensures RecoverExpired(db, r, actor, now).out.Err? && RecoverExpired(db, r, actor, now).db == db
  {
    var rows := ExpiredRows(db, now);
    hide Good, ExpiredRows, RecoverExpired, Overtaken, DependentGraph, Blockable, Dependents, NoDuplicates, AllRunning, AllPresent, Rows;
    ExpiredRowsGood(r, db, now);
    FirstRuns(db, rows);
    RunningUnblockable(db, rows[0]);
    GraphRows(db, rows[0]);
    var b :| b in Blockable(db) && Overtaken(DependentGraph(db), Blockable(db), Dependents(db, rows[0]), b);
    CaughtFirst(DependentGraph(db), Blockable(db), rows, b);
    hide Caught, RecoverRows;
    RecoverRaisesExactly(r, db, actor, now);
    RecoverUnfold(db, r, actor, now);
  }
}

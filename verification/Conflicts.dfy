/**
 When the blocking cascade cannot be recorded.  A cascade lists a frame's rows
 before it blocks them, so a task that is reached again through an earlier
 sibling is updated from a stale row and the whole transaction is rejected.
 The exact condition is read off the dependency graph before the call.
 */
module Conflicts {
  import opened Basics
  import opened Redaction
  import opened ChildModels
  import opened Tables
  import opened Listing
  import opened Cascade
  import opened Protocol
  import opened Invariants
  import opened Growth
  import opened Steps
  import opened Transactions

  /** Failing `id` would update some dependent from a stale row. */
  ghost predicate Tangled(db: Db, id: Id) {
    SomeOvertaken(DependentGraph(db), Blockable(db) - {id}, Dependents(db, id))
  }

  lemma SameGraph(db: Db, mid: Db)
    requires mid.ids == db.ids && mid.tasks.Keys == db.tasks.Keys
    requires forall id :: id in db.tasks ==>
      Deps(mid, id) == Deps(db, id) && mid.tasks[id].snapshot.createdAt == db.tasks[id].snapshot.createdAt
    ensures DependentGraph(mid) == DependentGraph(db)
    ensures forall id :: Dependents(mid, id) == Dependents(db, id)
  {
    assert CreationTimes(mid) == CreationTimes(db);
    forall id ensures DependentSet(mid, id) == DependentSet(db, id) {
      assert forall d :: d in mid.tasks.Keys <==> d in db.tasks.Keys;
    }
    hide DependentSet, CreationTimes;
    assert forall id :: Dependents(mid, id) == Dependents(db, id);
    hide Dependents;
    assert forall d :: d in mid.tasks.Keys <==> d in db.tasks.Keys;
  }

  lemma EndKeepsGraph(db: Db, t: ChildTask, actor: Name, now: int)
    requires LegalEnd(db, t, actor, now)
    ensures var mid := AfterEnd(db, t, actor, now);
      && DependentGraph(mid) == DependentGraph(db) && Dependents(mid, t.id) == Dependents(db, t.id)
      && Blockable(mid) == Blockable(db) - {t.id}
  {
    hide LegalStatus, Dependents;
    SameGraph(db, AfterEnd(db, t, actor, now));
  }

  lemma SettleRaises(r: Redactor, mid: Db, t: ChildTask, actor: Name, now: int)
    requires Good(r, mid) && HasStatus(mid, t.id, t.status)
    ensures Settle(mid, t.id, actor, now).Err? <==>
      t.status != Completed && SomeOvertaken(DependentGraph(mid), Blockable(mid), Dependents(mid, t.id))
  {
    assert Inv(mid);
    hide Inv, Good, SomeOvertaken, DependentGraph, Blockable, Dependents, BlockDependents, ReadyDependents;
    if t.status == Completed {
      CompletedSettleSafe(r, mid, t.id, actor, now);
    } else {
      BlockDependentsConflict(mid, t.id, actor, now);
    }
  }

  lemma AfterEndGood(r: Redactor, db: Db, t: ChildTask, actor: Name, now: int)
    requires Good(r, db) && LegalEnd(db, t, actor, now)
    ensures t.id in db.tasks
    ensures Good(r, AfterEnd(db, t, actor, now)) && HasStatus(AfterEnd(db, t, actor, now), t.id, t.status)
    ensures EndAndSettle(db, t, actor, now) == Settle(AfterEnd(db, t, actor, now), t.id, actor, now)
  {
    hide Good, Later, Legal, Settle;
    LegalEndTerminal(db, t, actor, now);
    AdvanceGrows(r, db, t, None, EventRow(Ended(t.status), actor, None, now));
  }

  /** An end is rejected if and only if it does not complete and the graph is tangled below it. */
  lemma EndRaisesExactly(r: Redactor, db: Db, t: ChildTask, actor: Name, now: int)
    requires Good(r, db) && LegalEnd(db, t, actor, now)
    ensures t.id in db.tasks
    ensures EndAndSettle(db, t, actor, now).Err? <==> t.status != Completed && Tangled(db, t.id)
  {
    hide Good, LegalEnd, EndAndSettle, AfterEnd, Settle, SomeOvertaken, DependentGraph, Blockable, Dependents;
    AfterEndGood(r, db, t, actor, now);
    SettleRaises(r, AfterEnd(db, t, actor, now), t, actor, now);
    EndKeepsGraph(db, t, actor, now);
  }

  /** When `finish` raises: the claim is not held, a completion has no result, or the
      task does not complete and the graph below it is tangled. */
  lemma FinishRaisesExactly(r: Redactor, db: Db, t: Ticket, status: Status, result: Option<TaskResult>, reason: string, actor: Name, now: int)
    requires Good(r, db)
    ensures Finish(db, r, t, status, result, reason, actor, now).out.Err? <==>
      || AssertClaim(db, t, now, true).Err?
      || (var cancelled := db.tasks[t.taskId].cancelRequested;
          if !cancelled && status == Completed then result.None? else Tangled(db, t.taskId))
  {
    hide Good, EndAndSettle, LegalEnd, Rewritten, Tangled, EndState, Finish;
    AssertClaimFacts(db, t, now, true);
    if AssertClaim(db, t, now, true).Ok? {
      hide AssertClaim;
      EndStateErrs(r, TaskAt(db, t.taskId), status, result, reason, now);
      FinishIs(r, db, t, status, result, reason, actor, now);
      if EndState(r, TaskAt(db, t.taskId), status, result, reason, now).Ok? {
        EndLegal(r, db, t, status, result, reason, actor, now);
        EndStateFacts(r, TaskAt(db, t.taskId), status, result, reason, now);
        EndRaisesExactly(r, db, Rewritten(r, EndState(r, TaskAt(db, t.taskId), status, result, reason, now).value, now), actor, now);
        RowFacts(r, db, t.taskId);
      }
    } else {
      FinishUnfold(r, db, t, status, result, reason, actor, now);
    }
  }

  lemma EndStateErrs(r: Redactor, current: ChildTask, status: Status, result: Option<TaskResult>, reason: string, now: int)
    requires current.status == Running
    ensures EndState(r, current, status, result, reason, now).Err? <==>
      !current.cancelRequested && status == Completed && result.None?
  {
    hide RedactResult, ReasonOr, CANCEL_OBSERVED;
  }

  lemma FinishIs(r: Redactor, db: Db, t: Ticket, status: Status, result: Option<TaskResult>, reason: string, actor: Name, now: int)
    requires AssertClaim(db, t, now, true).Ok? && t.taskId in db.tasks
    requires AssertClaim(db, t, now, true).value == TaskAt(db, t.taskId)
    ensures var ended := EndState(r, TaskAt(db, t.taskId), status, result, reason, now);
      Finish(db, r, t, status, result, reason, actor, now).out.Err? <==>
        ended.Err? || EndAndSettle(db, Rewritten(r, ended.value, now), actor, now).Err?
  {
    hide EndState, EndAndSettle, Rewritten, AssertClaim;
  }

  lemma UnknownStatus(db: Db, r: Redactor, id: Id, now: int)
    requires id in db.tasks
    ensures UnknownTask(db, r, id, now).status == Unknown
  {
    hide LEASE_EXPIRED;
  }

  /** Among tasks that can still be blocked, no two dependents of one task depend on
      each other, directly or through others. */
  ghost predicate Untangled(db: Db, id: Id) {
    !RedundantEdge(DependentGraph(db), Blockable(db) - {id})
  }

  lemma UntangledIsEnough(db: Db, id: Id)
    requires id in db.tasks && Untangled(db, id)
    ensures !Tangled(db, id)
  {
    hide RedundantEdge, Overtaken, Dependents, Blockable;
    assert Rows(DependentGraph(db), id) == Dependents(db, id);
    hide DependentGraph;
    if Tangled(db, id) {
      var b :| b in Blockable(db) - {id} && Overtaken(DependentGraph(db), Blockable(db) - {id}, Dependents(db, id), b);
      OvertakenNeedsRedundantEdge(DependentGraph(db), Blockable(db) - {id}, id, b);
    }
  }

  /** `a` and `b` depend on `id`, `b` also depends on `a`, and `a` is listed first
      among the dependents of `id`: failing `id` cannot be recorded. */
  lemma TriangleTangles(r: Redactor, db: Db, id: Id, a: Id, b: Id)
    requires Good(r, db) && id in db.tasks && a != b
    requires a in Blockable(db) - {id} && b in Blockable(db) - {id}
    requires Dependents(db, id) != [] && Dependents(db, id)[0] == a && b in Dependents(db, id)
    requires b in DependentSet(db, a)
    ensures Tangled(db, id)
  {
    IdsFacts(db);
    hide Good;
    var g, p := DependentGraph(db), Blockable(db) - {id};
    DependentsFacts(db, a);
    assert a in db.tasks && b in Rows(g, a);
    hide NoDuplicates, DependentGraph, Blockable, Dependents;
    ReachesStep(g, p, a, b);
    assert First(g, p, Dependents(db, id), b) == Some(a);
    assert Overtaken(g, p, Dependents(db, id), b);
  }
}

/** Each public transaction keeps the invariants, and the tables only grow. */
module Transactions {
  import opened Basics
  import opened Redaction
  import opened ChildModels
  import opened Transitions
  import opened Tables
  import opened Listing
  import opened Cascade
  import opened Protocol
  import opened Invariants
  import opened Growth
  import opened Steps

  // ----- A task that ends -----

  function AfterEnd(db: Db, t: ChildTask, actor: Name, now: int): Db
    requires t.id in db.tasks
  {
    Advance(db, t, None, EventRow(Ended(t.status), actor, None, now))
  }

  ghost predicate LegalEnd(db: Db, t: ChildTask, actor: Name, now: int) {
    Terminal(t.status) && Legal(db, t, None, EventRow(Ended(t.status), actor, None, now))
  }

  /** What a settled end changes besides the task itself: the rows it frees, or the rows it reaches. */
  ghost function Settled(mid: Db, t: ChildTask): set<Id> {
    if t.status == Completed then
      var rows := Picked(Dependents(mid, t.id), WithStatus(mid, {Pending}));
      set id | id in rows && id in mid.tasks && DepsCompleted(mid, Deps(mid, id))
    else Reached(mid, t.id)
  }

  ghost predicate SettledRow(row: TaskRow, row': TaskRow, t: ChildTask) {
    if t.status == Completed then NowReady(row, row')
    else row'.status == Blocked && row'.revision == row.revision + 1 && row'.snapshot.attemptCount == row.snapshot.attemptCount
  }

  lemma PendingRows(mid: Db, id: Id)
    requires NoDuplicates(mid.ids) && forall i :: i in mid.tasks ==> i in mid.ids
    ensures var rows := Picked(Dependents(mid, id), WithStatus(mid, {Pending}));
      && NoDuplicates(rows) && AllPending(mid, rows)
      && forall d :: d in rows <==> d in DependentSet(mid, id) && mid.tasks[d].status == Pending
  {
    DependentsFacts(mid, id);
    PickedNoDuplicates(Dependents(mid, id), WithStatus(mid, {Pending}));
  }

  lemma CompletedSettleSafe(r: Redactor, mid: Db, id: Id, actor: Name, now: int)
    requires Good(r, mid) && HasStatus(mid, id, Completed)
    ensures var rows, o := Picked(Dependents(mid, id), WithStatus(mid, {Pending})), Settle(mid, id, actor, now);
      && AllPending(mid, rows) && o.Ok? && Safe(r, mid, o.value)
      && OthersKept(mid, o.value, Freed(mid, rows)) && AllNowReady(mid, o.value, Freed(mid, rows))
  {
    IdsFacts(mid);
    hide Good, Safe, NowReady, DepsCompleted, OthersKept, Dependents, DependentSet, AllPending, AllNowReady;
    PendingRows(mid, id);
    hide NoDuplicates;
    ReadyRowsSafe(r, mid, Picked(Dependents(mid, id), WithStatus(mid, {Pending})), id, actor, now);
  }

  lemma SettleSafe(r: Redactor, mid: Db, t: ChildTask, actor: Name, now: int)
    requires Good(r, mid) && HasStatus(mid, t.id, t.status) && Terminal(t.status)
    requires Settle(mid, t.id, actor, now).Ok?
    ensures var db' := Settle(mid, t.id, actor, now).value;
      && Safe(r, mid, db') && OthersKept(mid, db', Settled(mid, t))
      && forall id :: id in Settled(mid, t) ==> id in mid.tasks && id in db'.tasks && SettledRow(mid.tasks[id], db'.tasks[id], t)
  {
    hide Good, Safe, OthersKept, Reached, NowReady, DepsCompleted, Dependents, ReadyDependents, BlockDependents;
    var db' := Settle(mid, t.id, actor, now).value;
    if t.status == Completed {
      CompletedSettleSafe(r, mid, t.id, actor, now);
      assert Settled(mid, t) == Freed(mid, Picked(Dependents(mid, t.id), WithStatus(mid, {Pending})));
    } else {
      assert Settled(mid, t) == Reached(mid, t.id);
      BlockDependentsSafe(r, mid, t.id, actor, now);
      forall id | id in Settled(mid, t)
        ensures id in mid.tasks && id in db'.tasks && SettledRow(mid.tasks[id], db'.tasks[id], t)
      {
        assert BlockedWithin(mid, db', t.id, id, actor, now);
      }
    }
  }

  lemma EndAndSettleSafe(r: Redactor, db: Db, t: ChildTask, actor: Name, now: int)
    requires Good(r, db) && LegalEnd(db, t, actor, now) && EndAndSettle(db, t, actor, now).Ok?
    ensures var mid, db' := AfterEnd(db, t, actor, now), EndAndSettle(db, t, actor, now).value;
      && Good(r, mid) && HasStatus(mid, t.id, t.status)
      && Settle(mid, t.id, actor, now) == Ok(db')
      && Safe(r, db, db')
  {
    var mid := AfterEnd(db, t, actor, now);
    hide Good, Later, Legal, Settled;
    AdvanceGrows(r, db, t, None, EventRow(Ended(t.status), actor, None, now));
    assert HasStatus(mid, t.id, t.status);
    hide Advance;
    SettleSafe(r, mid, t, actor, now);
    SafeTrans(r, db, mid, EndAndSettle(db, t, actor, now).value);
  }

  // ----- Finishing an attempt -----

  lemma AssertClaimFacts(db: Db, t: Ticket, now: int, allowCancellation: bool)
    ensures AssertClaim(db, t, now, allowCancellation).Ok? <==>
      && Holds(db, t) && db.tasks[t.taskId].claim.value.lease >= now && HasStatus(db, t.taskId, Running)
      && (allowCancellation || !db.tasks[t.taskId].cancelRequested)
    ensures AssertClaim(db, t, now, allowCancellation).Ok? ==>
      AssertClaim(db, t, now, allowCancellation).value == TaskAt(db, t.taskId)
  {}

  lemma EndStateFacts(r: Redactor, current: ChildTask, status: Status, result: Option<TaskResult>, reason: string, now: int)
    requires current.status == Running && EndState(r, current, status, result, reason, now).Ok?
    ensures var e := EndState(r, current, status, result, reason, now).value;
      && e == current.(status := e.status, result := e.result, reason := e.reason, completedAt := Some(now))
      && (if current.cancelRequested then e.status == Status.Cancelled
          else e.status == if status in {Completed, BudgetExhausted} then status else Failed)
      && (e.status == Completed ==> e.result.Some?)
      && (e.reason.Some? <==> e.status != Completed)
  {
    hide RedactResult, ReasonOr, CANCEL_OBSERVED;
  }

  lemma EndLegal(r: Redactor, db: Db, t: Ticket, status: Status, result: Option<TaskResult>, reason: string, actor: Name, now: int)
    requires Good(r, db) && HasStatus(db, t.taskId, Running)
    requires EndState(r, TaskAt(db, t.taskId), status, result, reason, now).Ok?
    ensures LegalEnd(db, Rewritten(r, EndState(r, TaskAt(db, t.taskId), status, result, reason, now).value, now), actor, now)
  {
    hide Good, RedactPayload, NoDuplicates, DepsCompleted, Startable, RedactResult, EndState;
    RowFacts(r, db, t.taskId);
    EndStateFacts(r, TaskAt(db, t.taskId), status, result, reason, now);
    RewrittenFacts(r, EndState(r, TaskAt(db, t.taskId), status, result, reason, now).value, now);
    hide Rewritten;
  }

  lemma FinishUnfold(r: Redactor, db: Db, t: Ticket, status: Status, result: Option<TaskResult>, reason: string, actor: Name, now: int)
    ensures var f := Finish(db, r, t, status, result, reason, actor, now);
      && (f.out.Err? ==> f.db == db)
      && (f.out.Ok? ==>
            && AssertClaim(db, t, now, true).Ok?
            && HasStatus(db, t.taskId, Running)
            && var ended := EndState(r, TaskAt(db, t.taskId), status, result, reason, now);
            && ended.Ok? && f.out.value == Rewritten(r, ended.value, now) && f.out.value.id in db.tasks
            && EndAndSettle(db, f.out.value, actor, now) == Ok(f.db))
  {
    hide EndState, EndAndSettle, Rewritten;
  }

  lemma FinishSafe(r: Redactor, db: Db, t: Ticket, status: Status, result: Option<TaskResult>, reason: string, actor: Name, now: int)
    requires Good(r, db)
    ensures Safe(r, db, Finish(db, r, t, status, result, reason, actor, now).db)
  {
    hide Good, Safe, LegalEnd, Finish, EndState, EndAndSettle, Rewritten;
    FinishUnfold(r, db, t, status, result, reason, actor, now);
    SafeRefl(r, db);
    if Finish(db, r, t, status, result, reason, actor, now).out.Ok? {
      EndLegal(r, db, t, status, result, reason, actor, now);
      EndAndSettleSafe(r, db, Finish(db, r, t, status, result, reason, actor, now).out.value, actor, now);
    }
  }

  // ----- Deadlines -----

  lemma ExpiryLegal(r: Redactor, db: Db, id: Id, actor: Name, now: int)
    requires Good(r, db) && HasStatus(db, id, Ready)
    ensures LegalEnd(db, Rewritten(r, EndedAs(TaskAt(db, id), BudgetExhausted, DEADLINE_REASON, now), now), actor, now)
  {
    hide Good, RedactPayload, NoDuplicates, DepsCompleted, Startable, RedactResult, DEADLINE_REASON;
    RowFacts(r, db, id);
    RewrittenFacts(r, EndedAs(TaskAt(db, id), BudgetExhausted, DEADLINE_REASON, now), now);
    hide Rewritten;
  }

  function ExpiredTask(db: Db, r: Redactor, id: Id, now: int): ChildTask
    requires id in db.tasks
  {
    Rewritten(r, EndedAs(TaskAt(db, id), BudgetExhausted, DEADLINE_REASON, now), now)
  }

  lemma ExpireUnfold(db: Db, r: Redactor, id: Id, expected: nat, actor: Name, now: int)
    ensures var e := ExpireDeadline(db, r, id, expected, actor, now);
      && (e.out != Ok(true) ==> e.db == db)
      && (e.out == Ok(true) ==>
            HasStatus(db, id, Ready) && EndAndSettle(db, ExpiredTask(db, r, id, now), actor, now) == Ok(e.db))
  {
    hide EndAndSettle, Rewritten, DEADLINE_REASON;
  }

  lemma ExpireDeadlineSafe(r: Redactor, db: Db, id: Id, expected: nat, actor: Name, now: int)
    requires Good(r, db)
    ensures Safe(r, db, ExpireDeadline(db, r, id, expected, actor, now).db)
  {
    hide Good, Safe, LegalEnd, ExpireDeadline, EndAndSettle, Rewritten, DEADLINE_REASON;
    ExpireUnfold(db, r, id, expected, actor, now);
    SafeRefl(r, db);
    if ExpireDeadline(db, r, id, expected, actor, now).out == Ok(true) {
      ExpiryLegal(r, db, id, actor, now);
      EndAndSettleSafe(r, db, ExpiredTask(db, r, id, now), actor, now);
    }
  }

  // ----- Starting an attempt -----

  function StartedTask(db: Db, r: Redactor, id: Id, now: int): ChildTask
    requires id in db.tasks
  {
    Rewritten(r, TaskAt(db, id).(status := Running, attemptCount := TaskAt(db, id).attemptCount + 1, reason := None), now)
  }

  function NewClaim(db: Db, worker: Name, seconds: int, now: int): Claim {
    Claim(db.uuids + 1, worker, db.uuids, LeaseUntil(now, seconds))
  }

  lemma StartUnfold(db: Db, r: Redactor, id: Id, expected: nat, worker: Name, seconds: int, now: int)
    ensures var s := Start(db, r, id, expected, worker, seconds, now);
      && (s.out.Err? ==> s.db == db)
      && (s.out.Ok? ==>
            && HasStatus(db, id, Ready) && !db.tasks[id].cancelRequested && db.tasks[id].revision == expected
            && DepsCompleted(db, Deps(db, id)) && ParentHasRoom(db, id).Ok?
            && s.db == Advance(db, StartedTask(db, r, id, now), Some(NewClaim(db, worker, seconds, now)),
                               EventRow(AttemptStarted, worker, None, now))
            && s.out.value == Ticket(id, db.uuids, StartedTask(db, r, id, now).attemptCount, worker, db.uuids + 1,
                                     LeaseUntil(now, seconds)))
  {
    hide Advance, Rewritten, DepsCompleted, ParentHasRoom, FirstMissing;
  }

  lemma StartLegal(r: Redactor, db: Db, id: Id, worker: Name, seconds: int, now: int)
    requires Good(r, db) && HasStatus(db, id, Ready) && !db.tasks[id].cancelRequested && ParentHasRoom(db, id).Ok?
    ensures Legal(db, StartedTask(db, r, id, now), Some(NewClaim(db, worker, seconds, now)), EventRow(AttemptStarted, worker, None, now))
  {
    hide Good, RedactPayload, NoDuplicates, DepsCompleted, ActiveChildren;
    RowFacts(r, db, id);
    RewrittenFacts(r, TaskAt(db, id).(status := Running, attemptCount := TaskAt(db, id).attemptCount + 1, reason := None), now);
    hide Rewritten;
  }

  lemma StartSafe(r: Redactor, db: Db, id: Id, expected: nat, worker: Name, seconds: int, now: int)
    requires Good(r, db)
    ensures Safe(r, db, Start(db, r, id, expected, worker, seconds, now).db)
  {
    hide Good, Safe, Start, StartedTask, NewClaim, Legal, Advance, DepsCompleted;
    StartUnfold(db, r, id, expected, worker, seconds, now);
    SafeRefl(r, db);
    if Start(db, r, id, expected, worker, seconds, now).out.Ok? {
      StartLegal(r, db, id, worker, seconds, now);
      AdvanceSafe(r, db, StartedTask(db, r, id, now), Some(NewClaim(db, worker, seconds, now)), EventRow(AttemptStarted, worker, None, now));
    }
  }

  lemma AdvanceSafe(r: Redactor, db: Db, t: ChildTask, claim: Option<Claim>, event: EventRow)
    requires Good(r, db) && Legal(db, t, claim, event)
    ensures Safe(r, db, Advance(db, t, claim, event))
  {
    hide Good, Legal, Later;
    AdvanceGrows(r, db, t, claim, event);
  }

  lemma HeartbeatSafe(r: Redactor, db: Db, t: Ticket, seconds: int, now: int)
    requires Good(r, db)
    ensures Safe(r, db, Heartbeat(db, t, seconds, now).db)
  {
    hide Good, Later, Beat;
    assert Safe(r, db, db) by { SafeRefl(r, db); }
    if Heartbeat(db, t, seconds, now).out.Ok? {
      BeatGrows(r, db, t.taskId, LeaseUntil(now, seconds), now);
    }
  }

  // ----- Cancelling -----

  ghost predicate NowCancelled(row: TaskRow, row': TaskRow) {
    && row'.cancelRequested && row'.revision == row.revision + 1 && row'.snapshot.attemptCount == row.snapshot.attemptCount
    && row'.status == (if row.status == Running then Running else Status.Cancelled)
    && (row.status == Running ==> row'.claim == row.claim)
  }

  function CancelOne(db: Db, r: Redactor, id: Id, root: Id, actor: Name, reason: Name, now: int): Db
    requires id in db.tasks
  {
    var updated := CancelledTask(r, TaskAt(db, id), reason, now);
    Advance(db, updated, if Terminal(updated.status) then None else db.tasks[id].claim, CancelEvent(updated, root, actor, now))
  }

  lemma CancelledFacts(r: Redactor, current: ChildTask, reason: Name, now: int)
    requires !Terminal(current.status) && RedactPayload(r, CreationPayload(current)) == CreationPayload(current)
    ensures var u := CancelledTask(r, current, reason, now);
      && CreationPayload(u) == CreationPayload(current) && u.createdAt == current.createdAt && u.attemptCount == current.attemptCount
      && u.revision == current.revision + 1 && u.cancelRequested
      && u.status == (if current.status == Running then Running else Status.Cancelled)
      && (if current.status == Running then u.completedAt == current.completedAt else u.completedAt == Some(now))
  {
    hide RedactPayload, RedactResultOption;
    var flagged := current.(cancelRequested := true);
    RewrittenFacts(r, if current.status == Running then flagged else EndedAs(flagged, Status.Cancelled, reason, now), now);
    hide Rewritten;
  }

  lemma CancelLegal(r: Redactor, db: Db, id: Id, root: Id, actor: Name, reason: Name, now: int)
    requires Good(r, db) && id in db.tasks && !Terminal(db.tasks[id].status)
    ensures var updated := CancelledTask(r, TaskAt(db, id), reason, now);
      var claim := if Terminal(updated.status) then None else db.tasks[id].claim;
      && Legal(db, updated, claim, CancelEvent(updated, root, actor, now))
      && NowCancelled(db.tasks[id], RowFor(db.tasks[id], updated, claim))
  {
    hide Good, RedactPayload, NoDuplicates, DepsCompleted, Startable, CancelledTask;
    RowFacts(r, db, id);
    CancelledFacts(r, TaskAt(db, id), reason, now);
  }

  lemma CancelOneSafe(r: Redactor, db: Db, id: Id, root: Id, actor: Name, reason: Name, now: int)
    requires Good(r, db) && id in db.tasks && !Terminal(db.tasks[id].status)
    ensures var mid := CancelOne(db, r, id, root, actor, reason, now);
      id in mid.tasks && Safe(r, db, mid) && OthersKept(db, mid, {id}) && NowCancelled(db.tasks[id], mid.tasks[id])
  {
    hide Good, Safe, Legal, CancelledTask, CancelEvent, NowCancelled;
    CancelLegal(r, db, id, root, actor, reason, now);
    var updated := CancelledTask(r, TaskAt(db, id), reason, now);
    var claim := if Terminal(updated.status) then None else db.tasks[id].claim;
    AdvanceSafe(r, db, updated, claim, CancelEvent(updated, root, actor, now));
  }

  /** The listed tasks that have not ended. */
  function Live(db: Db, rows: seq<Id>): set<Id> {
    set id | id in rows && id in db.tasks && !Terminal(db.tasks[id].status)
  }

  ghost predicate AllNowCancelled(db: Db, db': Db, ids: set<Id>) {
    forall id :: id in ids ==> id in db.tasks && id in db'.tasks && NowCancelled(db.tasks[id], db'.tasks[id])
  }

  /** What the first row of a cancellation becomes. */
  function CancelHead(db: Db, r: Redactor, rows: seq<Id>, root: Id, actor: Name, reason: Name, now: int): (mid: Db)
    requires rows != [] && rows[0] in db.tasks
    ensures mid.tasks.Keys == db.tasks.Keys
  {
    if Terminal(db.tasks[rows[0]].status) then db else CancelOne(db, r, rows[0], root, actor, reason, now)
  }

  lemma CancelRowsUnfold(db: Db, r: Redactor, rows: seq<Id>, root: Id, actor: Name, reason: Name, now: int)
    requires rows != [] && AllPresent(db, rows)
    ensures rows[0] in db.tasks
    ensures var mid := CancelHead(db, r, rows, root, actor, reason, now);
      && AllPresent(mid, rows[1..])
      && CancelRows(db, r, rows, root, actor, reason, now).0 == CancelRows(mid, r, rows[1..], root, actor, reason, now).0
  {
    hide CancelledTask, CancelEvent, Advance;
    assert rows[0] in db.tasks;
    var mid := CancelHead(db, r, rows, root, actor, reason, now);
    forall id | id in rows[1..] ensures id in mid.tasks { assert id in rows && id in db.tasks.Keys; }
  }

  lemma LiveAfter(db: Db, mid: Db, rows: seq<Id>)
    requires rows != [] && AllPresent(db, rows) && NoDuplicates(rows) && !Terminal(db.tasks[rows[0]].status)
    requires OthersKept(db, mid, {rows[0]})
    ensures Live(mid, rows[1..]) == Live(db, rows) - {rows[0]} && rows[0] in Live(db, rows)
  {
    assert rows[0] !in rows[1..];
    forall id ensures id in Live(mid, rows[1..]) <==> id in Live(db, rows) - {rows[0]} {
      assert id in rows <==> id == rows[0] || id in rows[1..];
      assert id in mid.tasks.Keys <==> id in db.tasks.Keys;
    }
  }

  lemma LiveTail(db: Db, rows: seq<Id>)
    requires rows != [] && rows[0] in db.tasks && Terminal(db.tasks[rows[0]].status)
    ensures Live(db, rows) == Live(db, rows[1..])
  {}

  lemma CancelHeadSafe(r: Redactor, db: Db, rows: seq<Id>, root: Id, actor: Name, reason: Name, now: int)
    requires Good(r, db) && rows != [] && rows[0] in db.tasks
    ensures var mid := CancelHead(db, r, rows, root, actor, reason, now);
      && Safe(r, db, mid)
      && if Terminal(db.tasks[rows[0]].status) then mid == db
         else rows[0] in mid.tasks && OthersKept(db, mid, {rows[0]}) && NowCancelled(db.tasks[rows[0]], mid.tasks[rows[0]])
  {
    hide Good, Safe, OthersKept, NowCancelled, CancelOne;
    if Terminal(db.tasks[rows[0]].status) {
      SafeRefl(r, db);
    } else {
      CancelOneSafe(r, db, rows[0], root, actor, reason, now);
    }
  }

  lemma CancelStep(r: Redactor, db: Db, rows: seq<Id>, root: Id, actor: Name, reason: Name, now: int, db': Db)
    requires Good(r, db) && rows != [] && NoDuplicates(rows) && AllPresent(db, rows) && rows[0] in db.tasks
    requires var mid := CancelHead(db, r, rows, root, actor, reason, now);
      OthersKept(mid, db', Live(mid, rows[1..])) && AllNowCancelled(mid, db', Live(mid, rows[1..]))
    ensures OthersKept(db, db', Live(db, rows)) && AllNowCancelled(db, db', Live(db, rows))
  {
    hide *;
    CancelHeadSafe(r, db, rows, root, actor, reason, now);
    var id, mid := rows[0], CancelHead(db, r, rows, root, actor, reason, now);
    if Terminal(db.tasks[id].status) {
      LiveTail(db, rows);
    } else {
      LiveAfter(db, mid, rows);
      CancelJoin(db, mid, db', id, Live(db, rows));
    }
  }

  lemma CancelNothing(r: Redactor, db: Db, rows: seq<Id>, root: Id, actor: Name, reason: Name, now: int)
    requires Good(r, db) && rows == [] && AllPresent(db, rows)
    ensures var db' := CancelRows(db, r, rows, root, actor, reason, now).0;
      && Safe(r, db, db') && OthersKept(db, db', Live(db, rows)) && AllNowCancelled(db, db', Live(db, rows))
  {
    hide Good, Later;
    SafeRefl(r, db);
  }

  /** Cancelling distinct rows is safe, and ends or flags exactly those that had not ended. */
  lemma {:induction false} CancelRowsSafe(r: Redactor, db: Db, rows: seq<Id>, root: Id, actor: Name, reason: Name, now: int)
    requires Good(r, db) && NoDuplicates(rows) && AllPresent(db, rows)
    ensures var db' := CancelRows(db, r, rows, root, actor, reason, now).0;
      && Safe(r, db, db') && OthersKept(db, db', Live(db, rows)) && AllNowCancelled(db, db', Live(db, rows))
    decreases |rows|
  {
    hide *;
    if rows == [] {
      CancelNothing(r, db, rows, root, actor, reason, now);
    } else {
      TailDistinct(rows);
      CancelRowsUnfold(db, r, rows, root, actor, reason, now);
      var mid := CancelHead(db, r, rows, root, actor, reason, now);
      CancelHeadSafe(r, db, rows, root, actor, reason, now);
      SafeGood(r, db, mid);
      CancelRowsSafe(r, mid, rows[1..], root, actor, reason, now);
      var db' := CancelRows(mid, r, rows[1..], root, actor, reason, now).0;
      SafeTrans(r, db, mid, db');
      CancelStep(r, db, rows, root, actor, reason, now, db');
    }
  }

  lemma SafeGood(r: Redactor, db: Db, db': Db)
    requires Safe(r, db, db')
    ensures Good(r, db')
  {}

  lemma CancelJoin(db: Db, mid: Db, db': Db, id: Id, live: set<Id>)
    requires id in live && id in db.tasks && id in mid.tasks
    requires OthersKept(db, mid, {id}) && NowCancelled(db.tasks[id], mid.tasks[id])
    requires OthersKept(mid, db', live - {id}) && AllNowCancelled(mid, db', live - {id})
    ensures OthersKept(db, db', live) && AllNowCancelled(db, db', live)
  {
    hide NowCancelled;
    assert db'.tasks.Keys == db.tasks.Keys;
    forall i | i in live ensures i in db.tasks && i in db'.tasks && NowCancelled(db.tasks[i], db'.tasks[i]) {
      if i != id { assert i in mid.tasks && i in db'.tasks && NowCancelled(mid.tasks[i], db'.tasks[i]); assert i in db.tasks.Keys; }
    }
  }

  lemma {:induction false} DistancesInTable(db: Db, root: Id, n: nat)
    requires n <= |db.ids|
    ensures forall id :: id in Distances(db, root, n) ==> id in db.ids
  {
    if n > 0 { DistancesInTable(db, root, n - 1); }
  }

  lemma DescendantsFacts(db: Db, root: Id)
    requires NoDuplicates(db.ids)
    ensures NoDuplicates(Descendants(db, root))
    ensures forall id :: id in Descendants(db, root) <==> id in Distances(db, root, |db.ids|)
  {
    var m := Distances(db, root, |db.ids|);
    DistancesInTable(db, root, |db.ids|);
    PickedNoDuplicates(db.ids, m.Keys);
    SortedInOrder(m, Scan(db, m.Keys));
  }

  lemma RequestCancelSafe(r: Redactor, db: Db, id: Id, expected: nat, actor: Name, reason: Name, now: int)
    requires Good(r, db)
    ensures var c := RequestCancel(db, r, id, expected, actor, reason, now);
      && Safe(r, db, c.db)
      && (c.out.Err? ==> c.db == db)
      && (c.out.Ok? ==>
            && id in db.tasks && db.tasks[id].revision == expected
            && OthersKept(db, c.db, Live(db, Descendants(db, id)))
            && AllNowCancelled(db, c.db, Live(db, Descendants(db, id))))
  {
    hide *;
    SafeRefl(r, db);
    RequestCancelUnfold(db, r, id, expected, actor, reason, now);
    IdsDistinct(r, db);
    DescendantsFacts(db, id);
    CancelRowsSafe(r, db, Descendants(db, id), id, actor, reason, now);
    if RequestCancel(db, r, id, expected, actor, reason, now).out.Err? {}
  }

  lemma IdsDistinct(r: Redactor, db: Db)
    requires Good(r, db)
    ensures NoDuplicates(db.ids)
  {
    IdsFacts(db);
  }

  lemma RequestCancelUnfold(db: Db, r: Redactor, id: Id, expected: nat, actor: Name, reason: Name, now: int)
    ensures AllPresent(db, Descendants(db, id))
    ensures var c := RequestCancel(db, r, id, expected, actor, reason, now);
      && (c.out.Err? ==> c.db == db)
      && (c.out.Ok? ==>
            && id in db.tasks && db.tasks[id].revision == expected
            && c.db == CancelRows(db, r, Descendants(db, id), id, actor, reason, now).0)
  {
    hide CancelRows;
  }

  // ----- Retrying -----

  lemma RetryUnfold(db: Db, r: Redactor, id: Id, expected: nat, actor: Name, now: int)
    ensures var t := Retry(db, r, id, expected, actor, now);
      && (t.out.Err? ==> t.db == db)
      && (t.out.Ok? ==>
            && id in db.tasks && db.tasks[id].revision == expected && RetryTask(TaskAt(db, id)).Ok?
            && var initial := InitialState(db, RetryTask(TaskAt(db, id)).value);
            && initial.Ok? && t.out.value == Rewritten(r, initial.value, now) && t.out.value.id == id
            && t.db == Advance(db, t.out.value, None, EventRow(Retried, actor, None, now)))
  {
    hide Advance, Rewritten, FirstMissing;
    hide InitialState;
  }

  lemma InitialStateFacts(db: Db, t: ChildTask)
    requires t.status == Pending && InitialState(db, t).Ok?
    ensures var i := InitialState(db, t).value;
      && i == t.(status := i.status, reason := i.reason)
      && (if DepsCompleted(db, t.deps) then i.status == Ready && !t.cancelRequested
          else if DeadDeps(db, t.deps) != [] then i.status == Blocked
          else i.status == Pending)
  {
    hide DepsCompleted, DeadDeps, OperatorReason;
  }

  lemma RetryLegal(r: Redactor, db: Db, id: Id, actor: Name, now: int)
    requires Good(r, db) && id in db.tasks && RetryTask(TaskAt(db, id)).Ok?
    requires InitialState(db, RetryTask(TaskAt(db, id)).value).Ok?
    ensures Legal(db, Rewritten(r, InitialState(db, RetryTask(TaskAt(db, id)).value).value, now), None, EventRow(Retried, actor, None, now))
  {
    hide Good, RedactPayload, NoDuplicates, DepsCompleted, RedactResult, Startable, DeadDeps, InitialState;
    RowFacts(r, db, id);
    InitialStateFacts(db, RetryTask(TaskAt(db, id)).value);
    RewrittenFacts(r, InitialState(db, RetryTask(TaskAt(db, id)).value).value, now);
    hide Rewritten;
  }

  lemma RetrySafe(r: Redactor, db: Db, id: Id, expected: nat, actor: Name, now: int)
    requires Good(r, db)
    ensures Safe(r, db, Retry(db, r, id, expected, actor, now).db)
  {
    hide Good, Safe, Retry, InitialState, RetryTask, Rewritten, Legal, Advance;
    RetryUnfold(db, r, id, expected, actor, now);
    SafeRefl(r, db);
    var t := Retry(db, r, id, expected, actor, now);
    if t.out.Ok? {
      RetryLegal(r, db, id, actor, now);
      AdvanceSafe(r, db, t.out.value, None, EventRow(Retried, actor, None, now));
    }
  }

  // ----- Recovering -----

  lemma UnknownLegal(r: Redactor, db: Db, id: Id, actor: Name, now: int)
    requires Good(r, db) && HasStatus(db, id, Running) && id in db.tasks
    ensures LegalEnd(db, UnknownTask(db, r, id, now), actor, now)
  {
    hide Good, RedactPayload, NoDuplicates, DepsCompleted, Startable, RedactResult, LEASE_EXPIRED;
    RowFacts(r, db, id);
    RewrittenFacts(r, EndedAs(TaskAt(db, id), Unknown, LEASE_EXPIRED, now), now);
    hide Rewritten;
  }

  ghost predicate AllRunning(db: Db, rows: seq<Id>) {
    forall id :: id in rows ==> HasStatus(db, id, Running)
  }

  function UnknownTask(db: Db, r: Redactor, id: Id, now: int): (t: ChildTask)
    requires id in db.tasks
    ensures t.id == id
  {
    Rewritten(r, EndedAs(TaskAt(db, id), Unknown, LEASE_EXPIRED, now), now)
  }

  lemma AfterEndKeepsOthers(db: Db, t: ChildTask, actor: Name, now: int)
    requires t.id in db.tasks
    ensures OthersKept(db, AfterEnd(db, t, actor, now), {t.id})
  {}

  lemma LegalEndTerminal(db: Db, t: ChildTask, actor: Name, now: int)
    requires LegalEnd(db, t, actor, now)
    ensures Terminal(t.status) && t.id in db.tasks
  {}

  /** An end that blocks or frees dependents leaves every task alone that is past waiting. */
  lemma EndFootprint(r: Redactor, db: Db, t: ChildTask, actor: Name, now: int)
    requires Good(r, db) && LegalEnd(db, t, actor, now) && EndAndSettle(db, t, actor, now).Ok?
    ensures OnlyWaitersTouched(db, EndAndSettle(db, t, actor, now).value, t.id)
  {
    hide *;
    LegalEndTerminal(db, t, actor, now);
    var mid, db' := AfterEnd(db, t, actor, now), EndAndSettle(db, t, actor, now).value;
    EndAndSettleSafe(r, db, t, actor, now);
    SettleSafe(r, mid, t, actor, now);
    AfterEndKeepsOthers(db, t, actor, now);
    SettledWaits(mid, t);
    FootprintJoin(db, mid, db', t);
  }

  /** Besides `id`, only rows that were waiting to start differ. */
  ghost predicate OnlyWaitersTouched(db: Db, db': Db, id: Id) {
    && db'.tasks.Keys == db.tasks.Keys
    && forall i :: i in db.tasks && i != id && db.tasks[i].status !in {Pending, Ready, Waiting} ==>
         db'.tasks[i] == db.tasks[i]
  }

  lemma SettledWaits(mid: Db, t: ChildTask)
    ensures forall i :: i in Settled(mid, t) ==> i in mid.tasks && mid.tasks[i].status in {Pending, Ready, Waiting}
  {
    hide DepsCompleted, Reaches, Dependents;
  }

  lemma FootprintJoin(db: Db, mid: Db, db': Db, t: ChildTask)
    requires OthersKept(db, mid, {t.id}) && OthersKept(mid, db', Settled(mid, t))
    requires forall i :: i in Settled(mid, t) ==> i in mid.tasks && mid.tasks[i].status in {Pending, Ready, Waiting}
    ensures OnlyWaitersTouched(db, db', t.id)
  {
    hide Settled;
    forall i | i in db.tasks && i != t.id && db.tasks[i].status !in {Pending, Ready, Waiting}
      ensures db'.tasks[i] == db.tasks[i]
    {
      assert i in mid.tasks.Keys && mid.tasks[i] == db.tasks[i];
    }
  }

  lemma RecoverRowsUnfold(db: Db, r: Redactor, rows: seq<Id>, actor: Name, now: int)
    requires rows != [] && AllPresent(db, rows) && HasStatus(db, rows[0], Running)
    ensures var o := RecoverRows(db, r, rows, actor, now);
      var t := UnknownTask(db, r, rows[0], now);
      o.Ok? ==>
        && EndAndSettle(db, t, actor, now).Ok?
        && var after := EndAndSettle(db, t, actor, now).value;
        && AllPresent(after, rows[1..])
        && RecoverRows(after, r, rows[1..], actor, now).Ok?
        && o.value.0 == RecoverRows(after, r, rows[1..], actor, now).value.0
        && o.value.1 == [t] + RecoverRows(after, r, rows[1..], actor, now).value.1
  {
    hide EndAndSettle, Rewritten, LEASE_EXPIRED;
  }

  lemma StillRunning(db: Db, after: Db, rows: seq<Id>)
    requires rows != [] && NoDuplicates(rows) && AllRunning(db, rows) && OnlyWaitersTouched(db, after, rows[0])
    ensures AllRunning(after, rows[1..])
  {
    TailDistinct(rows);
    forall id | id in rows[1..] ensures HasStatus(after, id, Running) {
      assert id in rows && HasStatus(db, id, Running) && id in after.tasks.Keys;
    }
  }

  lemma RecoverStep(r: Redactor, db: Db, rows: seq<Id>, actor: Name, now: int)
    requires Good(r, db) && rows != [] && NoDuplicates(rows) && AllRunning(db, rows)
    requires HasStatus(db, rows[0], Running) && rows[0] in db.tasks
    requires EndAndSettle(db, UnknownTask(db, r, rows[0], now), actor, now).Ok?
    ensures var t := UnknownTask(db, r, rows[0], now);
      && LegalEnd(db, t, actor, now)
      && var after := EndAndSettle(db, t, actor, now).value;
      && Safe(r, db, after) && Good(r, after) && AllRunning(after, rows[1..]) && NoDuplicates(rows[1..])
  {
    hide *;
    var t := UnknownTask(db, r, rows[0], now);
    TailDistinct(rows);
    UnknownLegal(r, db, rows[0], actor, now);
    EndAndSettleSafe(r, db, t, actor, now);
    var after := EndAndSettle(db, t, actor, now).value;
    SafeGood(r, db, after);
    EndFootprint(r, db, t, actor, now);
    StillRunning(db, after, rows);
  }

  lemma RecoverNothing(db: Db, r: Redactor, rows: seq<Id>, actor: Name, now: int)
    requires rows == [] && AllPresent(db, rows)
    ensures RecoverRows(db, r, rows, actor, now) == Ok((db, []))
  {}

  lemma {:induction false} RecoverRowsSafe(r: Redactor, db: Db, rows: seq<Id>, actor: Name, now: int)
    requires Good(r, db) && NoDuplicates(rows) && AllRunning(db, rows) && AllPresent(db, rows)
    requires RecoverRows(db, r, rows, actor, now).Ok?
    ensures Safe(r, db, RecoverRows(db, r, rows, actor, now).value.0)
    decreases |rows|
  {
    hide *;
    if rows == [] {
      RecoverNothing(db, r, rows, actor, now);
      SafeRefl(r, db);
    } else {
      FirstRuns(db, rows);
      RecoverRowsUnfold(db, r, rows, actor, now);
      RecoverStep(r, db, rows, actor, now);
      var after := EndAndSettle(db, UnknownTask(db, r, rows[0], now), actor, now).value;
      RecoverRowsSafe(r, after, rows[1..], actor, now);
      SafeTrans(r, db, after, RecoverRows(after, r, rows[1..], actor, now).value.0);
    }
  }

  lemma FirstRuns(db: Db, rows: seq<Id>)
    requires rows != [] && AllRunning(db, rows)
    ensures HasStatus(db, rows[0], Running) && rows[0] in db.tasks
  {
    assert rows[0] in rows;
  }

  /** The rows `recover_expired` lists. */
  function ExpiredRows(db: Db, now: int): seq<Id> {
    Sorted(UpdateTimes(db), Scan(db, ExpiredSet(db, now)))
  }

  lemma ExpiredRowsFacts(db: Db, now: int)
    requires NoDuplicates(db.ids) && forall i :: i in db.tasks ==> i in db.ids
    ensures NoDuplicates(ExpiredRows(db, now)) && AllRunning(db, ExpiredRows(db, now)) && AllPresent(db, ExpiredRows(db, now))
    ensures forall id :: id in ExpiredRows(db, now) <==> id in ExpiredSet(db, now)
  {
    PickedNoDuplicates(db.ids, ExpiredSet(db, now));
    SortedInOrder(UpdateTimes(db), Scan(db, ExpiredSet(db, now)));
  }

  lemma ExpiredRowsGood(r: Redactor, db: Db, now: int)
    requires Good(r, db)
    ensures NoDuplicates(ExpiredRows(db, now)) && AllRunning(db, ExpiredRows(db, now)) && AllPresent(db, ExpiredRows(db, now))
  {
    IdsFacts(db);
    hide *;
    ExpiredRowsFacts(db, now);
  }

  lemma RecoverUnfold(db: Db, r: Redactor, actor: Name, now: int)
    requires AllPresent(db, ExpiredRows(db, now))
    ensures var e, o := RecoverExpired(db, r, actor, now), RecoverRows(db, r, ExpiredRows(db, now), actor, now);
      && (e.out.Err? ==> e.db == db)
      && (e.out.Ok? ==> o.Ok? && e.db == o.value.0 && e.out.value == o.value.1)
  {
    hide RecoverRows;
  }

  lemma RecoverExpiredSafe(r: Redactor, db: Db, actor: Name, now: int)
    requires Good(r, db)
    ensures Safe(r, db, RecoverExpired(db, r, actor, now).db)
  {
    hide *;
    ExpiredRowsGood(r, db, now);
    RecoverUnfold(db, r, actor, now);
    SafeRefl(r, db);
    if RecoverExpired(db, r, actor, now).out.Ok? {
      RecoverRowsSafe(r, db, ExpiredRows(db, now), actor, now);
    }
  }

  // ----- Creating -----

  /** A task as `delegate` builds it: nothing has happened to it yet. */
  ghost predicate FreshTask(t: ChildTask) {
    && t.attemptCount == 0 && !t.cancelRequested && t.completedAt == None && t.result == None
    && NoDuplicates(t.deps)
    && (t.lineage.parent.None? ==> t.lineage.depth == 1)
  }

  /** An id that is stored is its own redaction. */
  lemma StoredIdsClean(r: Redactor, db: Db, ids: seq<Id>)
    requires Good(r, db) && forall d :: d in ids ==> d in db.tasks
    ensures Clean(r, ids)
  {
    hide Good;
    forall d | d in ids ensures r.text(d) == d { RowFacts(r, db, d); }
  }

  lemma StoredFacts(r: Redactor, db: Db, t: ChildTask)
    requires Good(r, db) && Idempotent(r) && FreshTask(t) && t.status == Pending
    requires ValidateLineage(db, t).Ok? && FirstMissing(db, t.deps).None? && InitialState(db, t).Ok?
    ensures var stored := RedactTask(r, InitialState(db, t).value);
      && stored.deps == t.deps && stored.lineage.parent == t.lineage.parent
      && RedactPayload(r, CreationPayload(stored)) == CreationPayload(stored)
      && stored.id == r.text(t.id)
  {
    var initial := InitialState(db, t).value;
    assert CreationPayload(initial) == CreationPayload(t) by { InitialStateFacts(db, t); }
    hide Good, InitialState, RedactSpec;
    RedactTaskPayload(r, initial);
    RedactPayloadIdempotent(r, CreationPayload(t));
    StoredIdsClean(r, db, t.deps);
    RedactNamesOfClean(r, t.deps);
    if t.lineage.parent.Some? { StoredIdsClean(r, db, [t.lineage.parent.value]); assert t.lineage.parent.value in [t.lineage.parent.value]; }
  }

  lemma StoreNewUnfold(db: Db, r: Redactor, t: ChildTask, actor: Name, key: Option<string>)
    ensures var c := StoreNew(db, r, t, actor, key);
      && (c.out.Err? ==> c.db == db)
      && (c.out.Ok? ==>
            && ValidateLineage(db, t).Ok? && FirstMissing(db, t.deps).None? && InitialState(db, t).Ok?
            && c.out.value == RedactTask(r, InitialState(db, t).value) && c.out.value.id !in db.tasks
            && c.db == Insert(db, c.out.value, key, EventRow(Created, actor, None, c.out.value.createdAt)))
  {
    hide InitialState, ValidateLineage, RedactTask, Insert, FirstMissing;
  }

  lemma NewInsertable(r: Redactor, db: Db, t: ChildTask, actor: Name, key: Option<string>)
    requires Good(r, db) && Idempotent(r) && FreshTask(t) && t.status == Pending && t.revision == 0
    requires key.Some? ==> key.value !in db.creationKeys
    requires StoreNew(db, r, t, actor, key).out.Ok?
    ensures var stored := StoreNew(db, r, t, actor, key).out.value;
      && Insertable(db, stored, key, EventRow(Created, actor, None, stored.createdAt))
      && RedactPayload(r, CreationPayload(stored)) == CreationPayload(stored)
  {
    hide Good, StoreNew, RedactPayload, RedactSpec, OperatorReason, DeadDeps;
    StoreNewUnfold(db, r, t, actor, key);
    StoredFacts(r, db, t);
    InitialStateFacts(db, t);
  }

  lemma CreateSafe(r: Redactor, db: Db, t: ChildTask, actor: Name, key: Option<string>)
    requires Good(r, db) && Idempotent(r) && FreshTask(t)
    ensures Safe(r, db, Create(db, r, t, actor, key).db)
  {
    hide Good, Later, StoreNew, RedactPayload, Insertable, Insert, RedactTask;
    SafeRefl(r, db);
    if t.revision == 0 && t.status == Pending && (key.Some? ==> key.value !in db.creationKeys) {
      StoreNewUnfold(db, r, t, actor, key);
      var c := StoreNew(db, r, t, actor, key);
      if c.out.Ok? {
        NewInsertable(r, db, t, actor, key);
        InsertGrows(r, db, c.out.value, key, EventRow(Created, actor, None, c.out.value.createdAt));
      }
    }
  }

  // ----- Deliveries -----

  lemma LapseKeepsOutbox(db: Db, now: int)
    requires OutboxAgrees(db)
    ensures OutboxAgrees(LapseDeliveries(db, now)) && LaterOutbox(db, LapseDeliveries(db, now))
  {
    hide NoDuplicates;
    var db' := LapseDeliveries(db, now);
    forall k | k in db.outbox
      ensures DeliveryAgrees(db'.outbox[k]) && LaterDelivery(db.outbox[k], db'.outbox[k], db.uuids)
      ensures db'.outbox[k].token.Some? ==> db'.outbox[k].token == db.outbox[k].token
    {
      assert DeliveryAgrees(db.outbox[k]);
    }
    assert OutboxAgrees(db');
  }

  lemma SameAttemptTable(db: Db, db': Db)
    requires AttemptsAgree(db) && db'.tasks == db.tasks && db'.attempts == db.attempts && db'.uuids == db.uuids
    ensures AttemptsAgree(db')
  {}

  lemma LapseKeeps(r: Redactor, db: Db, now: int)
    requires AttemptsAgree(db) && OutboxAgrees(db) && Redacted(r, db)
    ensures var db' := LapseDeliveries(db, now);
      && OutboxAgrees(db') && AttemptsAgree(db') && Redacted(r, db') && Later(db, db')
  {
    hide OutboxAgrees, AttemptsAgree, LaterRow, RedactPayload, LaterTasks, LaterAttempts, LaterOutbox;
    var db' := LapseDeliveries(db, now);
    SameTasks(db, db');
    SameAttempts(db, db');
    SameAttemptTable(db, db');
    LapseKeepsOutbox(db, now);
  }

  lemma LapseSafe(r: Redactor, db: Db, now: int)
    requires Good(r, db)
    ensures Safe(r, db, LapseDeliveries(db, now))
  {
    hide RowsAgree, Founded, DependencyOrder, AttemptsAgree, HistoryDense, OutboxAgrees, ParallelismBounded, Redacted, Later;
    SameTasksSameOrder(db, LapseDeliveries(db, now));
    LapseKeeps(r, db, now);
  }

  lemma ClaimDeliverySafe(r: Redactor, db: Db, worker: Name, seconds: int, now: int)
    requires Good(r, db)
    ensures Safe(r, db, ClaimDelivery(db, worker, seconds, now).db)
  {
    hide Good, Later, LapseDeliveries, OldestDue;
    assert Safe(r, db, db) by { SafeRefl(r, db); }
    if seconds >= 1 {
      var lapsed := LapseDeliveries(db, now);
      LapseSafe(r, db, now);
      assert lapsed.uuids == db.uuids by { LapsedUuids(db, now); }
      var k := OldestDue(lapsed, |lapsed.sent|);
      if k.Some? {
        var d := lapsed.outbox[k.value];
        var d' := d.(status := DeliveryClaimed, token := Some(db.uuids), worker := Some(worker),
                     lease := Some(LeaseUntil(now, seconds)), attempts := d.attempts + 1, updatedAt := now, error := None);
        DeliveryGrows(r, lapsed, k.value, d', 1);
        SafeTrans(r, db, lapsed, PutDelivery(lapsed, k.value, d', 1));
      }
    }
  }

  lemma LapsedUuids(db: Db, now: int)
    ensures LapseDeliveries(db, now).uuids == db.uuids && LapseDeliveries(db, now).sent == db.sent
  {}

  lemma FinishDeliverySafe(r: Redactor, db: Db, t: DeliveryTicket, delivered: bool, error: Option<string>, now: int)
    requires Good(r, db)
    ensures Safe(r, db, FinishDelivery(db, t, delivered, error, now).db)
  {
    hide Good, Later;
    assert Safe(r, db, db) by { SafeRefl(r, db); }
    var f := FinishDelivery(db, t, delivered, error, now);
    if f.out.Ok? { DeliveryGrows(r, db, t.key, f.out.value, 0); }
  }
}

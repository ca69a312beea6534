/**
 The child-task store: an object that holds the tables and changes them in place.
 Every public method is one transaction.  It answers, and leaves the tables, as the
 function of the same name in `Protocol` says, and when it raises the tables are
 rolled back.
 */
module ChildTaskStores {
  import opened Basics
  import opened Redaction
  import opened ChildModels
  import opened Transitions
  import opened Tables
  import opened Cascade
  import opened Protocol
  import opened Invariants
  import opened Growth
  import opened Steps
  import opened Transactions
  import opened Writes
  import opened Frames

  /** What an update from a stale read raises. */
  function StaleError(db: Db, current: ChildTask): Error {
    if current.id in db.tasks then RevisionConflict(current.id, current.revision, db.tasks[current.id].revision)
    else NotFound(current.id)
  }

  lemma StaleErrorIs(db: Db, current: ChildTask)
    requires current.id in db.tasks
    ensures StaleError(db, current) == RevisionConflict(current.id, current.revision, db.tasks[current.id].revision)
  {}

  class ChildTaskStore {
    const redactor: Redactor
    var ids: seq<Id>
    var tasks: map<Id, TaskRow>
    var creationKeys: map<string, Id>
    var attempts: map<TaskKey, AttemptRow>
    var events: map<TaskKey, EventRow>
    var sent: seq<TaskKey>
    var outbox: map<TaskKey, DeliveryRow>
    var uuids: nat

    function Tables(): Db
      reads this
    {
      Db(ids, tasks, creationKeys, attempts, events, sent, outbox, uuids)
    }

    ghost predicate Valid()
      reads this
    {
      Idempotent(redactor) && Good(redactor, Tables())
    }

    constructor (r: Redactor)
      requires Idempotent(r)
      ensures Valid() && Tables() == EmptyDb && redactor == r
    {
      redactor := r;
      ids, tasks, creationKeys, attempts, events, sent, outbox, uuids := [], map[], map[], map[], map[], [], map[], 0;
      new;
      EmptyInv();
    }

    // ----- Inside a transaction -----

    /** A raise inside a connection block takes every write of the block back. */
    method Rollback(saved: Db)
      modifies this
      ensures Tables() == saved
    {
      ids, tasks, creationKeys, attempts := saved.ids, saved.tasks, saved.creationKeys, saved.attempts;
      events, sent, outbox, uuids := saved.events, saved.sent, saved.outbox, saved.uuids;
    }

    method UpdateSnapshot(current: ChildTask, updated: ChildTask, clear: bool) returns (out: Outcome<()>)
      requires current.id == updated.id
      modifies this
      ensures out.Ok? <==> current.id in old(Tables()).tasks && old(Tables()).tasks[current.id].revision == current.revision
      ensures out.Ok? ==> Tables() == Written(old(Tables()), updated, clear)
      ensures out.Err? ==> Tables() == old(Tables()) && out.error == StaleError(old(Tables()), current)
    {
      if current.id !in tasks {
        return Err(NotFound(current.id));
      }
      var row := tasks[current.id];
      if row.revision != current.revision {
        return Err(RevisionConflict(current.id, current.revision, row.revision));
      }
      var claim := if clear then None else row.claim;
      tasks := tasks[current.id := TaskRow(row.rowid, updated.status, updated.revision, updated.cancelRequested,
                                           updated.updatedAt, updated.completedAt, claim, updated)];
      return Ok(());
    }

    method TerminalizeAttempt(task: ChildTask, which: Option<nat>, now: int)
      modifies this
      ensures Tables() == Closed(old(Tables()), task, which, now)
    {
      var found := RunningAttempt(Tables(), task.id, task.attemptCount, which);
      if found.Some? {
        var key := (task.id, found.value);
        attempts := attempts[key := attempts[key].(status := task.status, result := task.result, error := task.reason,
                                                   updatedAt := now, completedAt := Some(now))];
      }
    }

    method InsertDelivery(task: ChildTask, now: int)
      modifies this
      ensures Tables() == Owing(old(Tables()), task, now)
    {
      var key := (task.id, task.revision);
      if key !in outbox {
        sent := sent + [key];
        outbox := outbox[key := DeliveryRow(DeliveryPending, None, None, None, 0, None, now, now, None)];
      }
    }

    method InsertEvent(task: ChildTask, event: EventRow)
      modifies this
      ensures Tables() == Logged(old(Tables()), task, event)
    {
      events := events[(task.id, task.revision) := event];
    }

    /** Block every task that waits for `ended`, and everything that waits for those. */
    method BlockDependents(ended: ChildTask, actor: Name, now: int) returns (out: Outcome<()>)
      requires Good(redactor, Tables()) && HasStatus(Tables(), ended.id, ended.status)
      requires ended.status !in {Pending, Ready, Waiting}
      modifies this
      ensures match Protocol.BlockDependents(old(Tables()), ended.id, actor, now)
              case Ok(db) => out == Ok(()) && Tables() == db
              case Err(e) => out == Err(e)
      decreases |Blockable(Tables())|
    {
      hide *;
      ghost var db := Tables();
      EndedUnblockable(db, ended.id, ended.status);
      BlockListPresent(db, ended.id);
      BlockTurnStarts(redactor, db, ended.id);
      NothingBlocked(db, actor, now);
      var rows := BlockList(Tables(), ended.id);
      var fetched := Fetched(Tables(), rows);
      ghost var edges: seq<(Id, Id)> := [];
      var i := 0;
      while i < |rows|
        invariant 0 <= i <= |rows| && BlockTurn(redactor, db, ended.id, rows, i, edges)
        invariant Tables() == BlockRows(db, edges, actor, now)
      {
        TurnWrites(redactor, db, ended.id, rows, i, edges, actor, now);
        var current := fetched[i];
        var blocked := BlockTask(current, BlockReason(ended.id, ended.status));
        var updated := Next(blocked.value, now);
        var written := UpdateSnapshot(current, updated, false);
        if written.Err? {
          StaleErrorIs(Tables(), current);
          TaskAtRevision(db, rows[i]);
          TurnStale(redactor, db, ended.id, rows, i, edges, actor, now);
          return Err(written.error);
        }
        InsertEvent(updated, EventRow(MadeBlocked, actor, Some(ended.id), now));
        TurnBlocks(redactor, db, ended.id, rows, i, edges, actor, now);
        BlockedRowIs(redactor, db, Tables(), edges + [(ended.id, rows[i])], ended.id, rows[i], BlockRows(db, edges, actor, now), actor, now);
        TurnReturns(redactor, db, ended.id, rows, i, edges, actor, now);
        var below := BlockDependents(updated, actor, now);
        if below.Err? {
          return Err(below.error);
        }
        edges := Through(db, ended.id, rows[i], edges);
        i := i + 1;
      }
      TurnEnds(redactor, db, ended.id, rows, edges, actor, now);
      return Ok(());
    }
  
    /** Wake every task that waits for `completed` and now waits for nothing. */
    method ReadyDependents(completed: ChildTask, actor: Name, now: int) returns (out: Outcome<()>)
      requires Good(redactor, Tables())
      modifies this
      ensures match Protocol.ReadyDependents(old(Tables()), completed.id, actor, now)
              case Ok(db) => out == Ok(()) && Tables() == db
              case Err(e) => out == Err(e)
    {
      hide *;
      ghost var db := Tables();
      var rows := ReadyList(Tables(), completed.id);
      ReadyTurnStarts(redactor, db, completed.id, actor, now);
      ReadyTurnParts(redactor, db, db, rows, 0, completed.id, actor, now);
      var fetched := Fetched(Tables(), rows);
      var i := 0;
      while i < |rows|
        invariant 0 <= i <= |rows| && ReadyTurn(redactor, db, Tables(), rows, i, completed.id, actor, now)
      {
        var current := fetched[i];
        ReadyTurnSkips(redactor, db, Tables(), rows, i, completed.id, actor, now);
        if DepsCompleted(Tables(), current.deps) {
          ghost var cur := Tables();
          ReadyTurnParts(redactor, db, cur, rows, i, completed.id, actor, now);
          ReadyTurnMoves(redactor, db, cur, rows, i, completed.id, actor, now);
          ReadyTurnWrites(redactor, cur, rows[i], completed.id, actor, now);
          TaskAtRevision(cur, rows[i]);
          var updated := Next(MarkReady(current).value, now);
          var written := UpdateSnapshot(current, updated, false);
          if written.Err? {
            return written;
          }
          InsertEvent(updated, EventRow(MadeReady, actor, Some(completed.id), now));
        }
        i := i + 1;
      }
      ReadyTurnEnds(redactor, db, Tables(), rows, completed.id, actor, now);
      return Ok(());
    }
  
    /** Write a task that ended, with everything that goes with it, and settle its dependents. */
    method RecordEnd(current: ChildTask, updated: ChildTask, which: Option<nat>, actor: Name, now: int)
      returns (out: Outcome<()>)
      requires Good(redactor, Tables()) && LegalEnd(Tables(), updated, actor, now)
      requires ClaimedAttempt(Tables(), updated.id, which)
      requires current.id == updated.id && current.revision == Tables().tasks[updated.id].revision
      modifies this
      ensures match EndAndSettle(old(Tables()), updated, actor, now)
              case Ok(db) => out == Ok(()) && Tables() == db
              case Err(e) => out == Err(e)
    {
      hide *;
      ghost var db := Tables();
      EndTurn(redactor, db, updated, which, actor, now);
      EndTablesAre(db, updated, which, actor, now);
      var written := UpdateSnapshot(current, updated, true);
      TerminalizeAttempt(updated, which, now);
      InsertDelivery(updated, now);
      InsertEvent(updated, EventRow(Ended(updated.status), actor, None, now));
      if updated.status == Completed {
        out := ReadyDependents(updated, actor, now);
      } else {
        TerminalNotWaiting(updated.status);
        out := BlockDependents(updated, actor, now);
      }
    }

    /** What an attempt ends as: a requested cancellation wins over the worker's report. */
    method EndedAttempt(current: ChildTask, status: Status, result: Option<TaskResult>, reason: string, now: int)
      returns (out: Outcome<ChildTask>)
      requires current.status == Running
      ensures out == EndState(redactor, current, status, result, reason, now)
    {
      EndBranches(redactor, current, status, result, reason, now);
      hide *;
      if current.cancelRequested {
        var cancelled := CancelTask(current, CANCEL_OBSERVED, now);
        out := Ok(cancelled.value.(result := RedactResultOption(redactor, result)));
      } else if status == Completed {
        if result.None? {
          return Err(InvalidValue);
        }
        out := CompleteTask(current, RedactResult(redactor, result.value), now);
      } else if status == BudgetExhausted {
        out := ExhaustBudget(current, ReasonOr(reason, "Budget exhausted."), now);
      } else {
        out := FailTask(current, ReasonOr(reason, "Child execution failed."), now);
      }
    }

    // ----- Transactions -----

    /** `_finish_attempt`, behind `complete`, `fail` and `exhaust_budget`. */
    method FinishAttempt(t: Ticket, status: Status, result: Option<TaskResult>, reason: string, actor: Name, now: int)
      returns (out: Outcome<ChildTask>)
      requires Valid()
      modifies this
      ensures Valid()
      ensures Txn(Tables(), out) == Protocol.Finish(old(Tables()), redactor, t, status, result, reason, actor, now)
    {
      ValidParts();
      hide *;
      var saved := Tables();
      FinishSafe(redactor, saved, t, status, result, reason, actor, now);
      SafeGood(redactor, saved, Protocol.Finish(saved, redactor, t, status, result, reason, actor, now).db);
      FinishPaths(saved, redactor, t, status, result, reason, actor, now);
      var claimed := AssertClaim(Tables(), t, now, true);
      if claimed.Err? {
        BecomeValid();
        return Err(claimed.error);
      }
      var ended := EndedAttempt(claimed.value, status, result, reason, now);
      if ended.Err? {
        BecomeValid();
        return Err(ended.error);
      }
      var updated := Rewritten(redactor, ended.value, now);
      EndLegal(redactor, saved, t, status, result, reason, actor, now);
      HolderAttempt(saved, t);
      var settled := RecordEnd(claimed.value, updated, Some(t.attemptId), actor, now);
      if settled.Err? {
        Rollback(saved);
        BecomeValid();
        return Err(settled.error);
      }
      BecomeValid();
      return Ok(updated);
    }

    /** Insert a new task, or answer with the one its key already stands for. */
    method Create(task: ChildTask, actor: Name, key: Option<string>) returns (out: Outcome<ChildTask>)
      requires Valid() && FreshTask(task)
      modifies this
      ensures Valid()
      ensures Txn(Tables(), out) == Protocol.Create(old(Tables()), redactor, task, actor, key)
    {
      ValidParts();
      hide *;
      ghost var db := Tables();
      CreateSafe(redactor, db, task, actor, key);
      SafeGood(redactor, db, Protocol.Create(db, redactor, task, actor, key).db);
      CreatePaths(db, redactor, task, actor, key);
      StoreNewPaths(db, redactor, task, actor, key);
      if task.revision != 0 || task.status != Pending {
        out := Err(InvalidValue);
      } else if key.Some? && key.value in Tables().creationKeys {
        out := Replay(Tables().creationKeys[key.value], task);
      } else {
        var lineage, missing := ValidateLineage(Tables(), task), FirstMissing(Tables(), task.deps);
        var initial := InitialState(Tables(), task);
        if lineage.Err? {
          out := Err(lineage.error);
        } else if missing.Some? {
          out := Err(NotFound(missing.value));
        } else if initial.Err? {
          out := Err(initial.error);
        } else {
          var stored := RedactTask(redactor, initial.value);
          if stored.id in Tables().tasks {
            out := Err(InvalidValue);
          } else {
            InsertTask(stored, key, actor);
            out := Ok(stored);
          }
        }
      }
      BecomeValid();
    }

    /** The answer to a key that was used before. */
    method Replay(id: Id, task: ChildTask) returns (out: Outcome<ChildTask>)
      ensures out ==
        if id !in Tables().tasks then Err(NotFound(id))
        else if CreationPayload(TaskAt(Tables(), id)) != CreationPayload(RedactTask(redactor, task)) then Err(WorkConflict)
        else Ok(TaskAt(Tables(), id))
    {
      hide RedactTask;
      if id !in tasks {
        return Err(NotFound(id));
      }
      var existing := TaskAt(Tables(), id);
      if CreationPayload(existing) != CreationPayload(RedactTask(redactor, task)) {
        return Err(WorkConflict);
      }
      return Ok(existing);
    }

    method InsertTask(stored: ChildTask, key: Option<string>, actor: Name)
      modifies this
      ensures Tables() == Insert(old(Tables()), stored, key, EventRow(Created, actor, None, stored.createdAt))
    {
      tasks := tasks[stored.id := TaskRow(|ids|, stored.status, stored.revision, stored.cancelRequested,
                                          stored.updatedAt, stored.completedAt, None, stored)];
      ids := ids + [stored.id];
      if key.Some? {
        creationKeys := creationKeys[key.value := stored.id];
      }
      events := events[(stored.id, 0) := EventRow(Created, actor, None, stored.createdAt)];
    }

    /** `_expire_deadline_if_due`: a READY task past its deadline ends. */
    method ExpireDeadlineIfDue(id: Id, expected: nat, actor: Name, now: int) returns (out: Outcome<bool>)
      requires Valid()
      modifies this
      ensures Valid()
      ensures Txn(Tables(), out) == Protocol.ExpireDeadline(old(Tables()), redactor, id, expected, actor, now)
    {
      ValidParts();
      hide *;
      var saved := Tables();
      ExpireDeadlineSafe(redactor, saved, id, expected, actor, now);
      SafeGood(redactor, saved, Protocol.ExpireDeadline(saved, redactor, id, expected, actor, now).db);
      ExpirePaths(saved, redactor, id, expected, actor, now);
      var checked := CheckRevision(Tables(), id, expected);
      if checked.Err? {
        BecomeValid();
        return Err(checked.error);
      }
      var current := checked.value;
      if current.spec.deadline.None? || now < current.spec.deadline.value || current.status != Ready {
        BecomeValid();
        return Ok(false);
      }
      var updated := Rewritten(redactor, ExhaustBudget(current, DEADLINE_REASON, now).value, now);
      ExpiryLegal(redactor, saved, id, actor, now);
      ExpiredIs(saved, redactor, id, now);
      ReadyUnclaimed(saved, id);
      EndTurn(redactor, saved, updated, None, actor, now);
      EndTablesAre(saved, updated, None, actor, now);
      NothingToClose(redactor, saved, updated, now);
      var written := UpdateSnapshot(current, updated, true);
      InsertDelivery(updated, now);
      InsertEvent(updated, EventRow(Ended(updated.status), actor, None, now));
      TerminalNotWaiting(updated.status);
      var settled := BlockDependents(updated, actor, now);
      if settled.Err? {
        Rollback(saved);
        BecomeValid();
        return Err(settled.error);
      }
      BecomeValid();
      return Ok(true);
    }

    /** The second transaction of `claim`. */
    method StartNextAttempt(id: Id, expected: nat, worker: Name, seconds: int, now: int) returns (out: Outcome<Ticket>)
      requires Valid()
      modifies this
      ensures Valid()
      ensures Txn(Tables(), out) == Protocol.Start(old(Tables()), redactor, id, expected, worker, seconds, now)
    {
      ValidParts();
      hide *;
      ghost var db := Tables();
      StartSafe(redactor, db, id, expected, worker, seconds, now);
      SafeGood(redactor, db, Protocol.Start(db, redactor, id, expected, worker, seconds, now).db);
      StartPaths(db, redactor, id, expected, worker, seconds, now);
      var started := StartCheck(Tables(), id, expected);
      if started.Err? {
        BecomeValid();
        return Err(started.error);
      }
      var changed := Rewritten(redactor, started.value, now);
      var claim := NewClaim(Tables(), worker, seconds, now);
      ReadyUnclaimedRow(redactor, db, id);
      var written := WriteAttempt(changed, expected, claim, worker, now);
      BecomeValid();
      return Ok(TicketFor(changed, claim));
    }

    /** The guarded update of a claim and, when it finds its row, the attempt and the event. */
    method WriteAttempt(changed: ChildTask, revision: nat, claim: Claim, worker: Name, now: int) returns (written: bool)
      requires changed.id in Tables().tasks && changed.status == Running
      requires changed.cancelRequested == Tables().tasks[changed.id].cancelRequested
      requires changed.completedAt == Tables().tasks[changed.id].completedAt
      modifies this
      ensures var row := old(Tables()).tasks[changed.id];
        written <==> row.revision == revision && row.status == Ready && !row.cancelRequested && row.claim.None?
      ensures Tables() ==
        if written then Advance(old(Tables()), changed, Some(claim), EventRow(AttemptStarted, worker, None, now))
        else old(Tables())
    {
      var row := tasks[changed.id];
      written := row.revision == revision && row.status == Ready && !row.cancelRequested && row.claim.None?;
      if written {
        tasks := tasks[changed.id := row.(status := changed.status, revision := changed.revision, snapshot := changed,
                                          claim := Some(claim), updatedAt := changed.updatedAt)];
        attempts := attempts[(changed.id, changed.attemptCount) :=
          AttemptRow(claim.attemptId, claim.worker, claim.token, Running, claim.lease, None, None, now, now, None)];
        events := events[(changed.id, changed.revision) := EventRow(AttemptStarted, worker, None, now)];
        uuids := uuids + 2;
      }
    }

    /** Claim a READY task: first its deadline, then, in a transaction of its own, its next attempt. */
    method ClaimTask(id: Id, expected: nat, worker: Name, seconds: int, now: int) returns (out: Outcome<Ticket>)
      requires Valid()
      modifies this
      ensures Valid()
      ensures var expired := Protocol.ExpireDeadline(old(Tables()), redactor, id, expected, worker, now);
        Txn(Tables(), out) ==
          if seconds < 1 then Txn(old(Tables()), Err(InvalidValue))
          else if expired.out.Err? then Txn(old(Tables()), Err(expired.out.error))
          else if expired.out.value then Txn(expired.db, Err(LeaseConflict))
          else Protocol.Start(old(Tables()), redactor, id, expected, worker, seconds, now)
    {
      if seconds < 1 {
        return Err(InvalidValue);
      }
      ExpireUnfold(Tables(), redactor, id, expected, worker, now);
      hide *;
      var expired := ExpireDeadlineIfDue(id, expected, worker, now);
      if expired.Err? {
        return Err(expired.error);
      }
      if expired.value {
        return Err(LeaseConflict);
      }
      out := StartNextAttempt(id, expected, worker, seconds, now);
    }

    method Heartbeat(t: Ticket, seconds: int, now: int) returns (out: Outcome<Ticket>)
      requires Valid()
      modifies this
      ensures Valid()
      ensures Txn(Tables(), out) == Protocol.Heartbeat(old(Tables()), t, seconds, now)
    {
      ValidParts();
      hide *;
      ghost var db := Tables();
      HeartbeatSafe(redactor, db, t, seconds, now);
      SafeGood(redactor, db, Protocol.Heartbeat(db, t, seconds, now).db);
      HeartbeatPaths(db, t, seconds, now);
      if seconds < 1 {
        out := Err(InvalidValue);
      } else if !Beatable(Tables(), t, now) {
        out := Err(LeaseConflict);
      } else {
        var lease := LeaseUntil(now, seconds);
        ExtendLease(t, lease, now);
        out := Ok(t.(lease := lease));
      }
      BecomeValid();
    }

    method ExtendLease(t: Ticket, lease: int, now: int)
      requires Good(redactor, Tables()) && Beatable(Tables(), t, now)
      modifies this
      ensures t.taskId in old(Tables()).tasks && old(Tables()).tasks[t.taskId].claim.Some?
      ensures Tables() == Beat(old(Tables()), t.taskId, lease, now)
    {
      hide Good, RunningAttempt;
      BeatenAttempt(redactor, Tables(), t, now);
      var row := tasks[t.taskId];
      var found := RunningAttempt(Tables(), t.taskId, row.snapshot.attemptCount, Some(t.attemptId));
      tasks := tasks[t.taskId := row.(updatedAt := now, claim := Some(row.claim.value.(lease := lease)))];
      var key := (t.taskId, found.value);
      if attempts[key].token == t.token {
        attempts := attempts[key := attempts[key].(lease := lease, updatedAt := now)];
      }
    }

    /** Before its next action a worker asks whether it may go on: the row must still carry
        its ticket, run, and not be cancelled, under a lease that has not run out. */
    method AssertAttemptBoundary(t: Ticket, now: int) returns (out: Outcome<ChildTask>)
      ensures out.Ok? <==>
        && Holds(Tables(), t) && HasStatus(Tables(), t.taskId, Running)
        && Tables().tasks[t.taskId].claim.value.lease >= now && !Tables().tasks[t.taskId].cancelRequested
      ensures out.Ok? ==> out.value == TaskAt(Tables(), t.taskId)
      ensures out.Err? ==> out.error == if t.taskId in Tables().tasks then LeaseConflict else NotFound(t.taskId)
    {
      out := AssertClaim(Tables(), t, now, false);
    }

    /** Cancel a task and everything below it. */
    method RequestCancel(id: Id, expected: nat, actor: Name, reason: Name, now: int) returns (out: Outcome<seq<ChildTask>>)
      requires Valid()
      modifies this
      ensures Valid()
      ensures Txn(Tables(), out) == Protocol.RequestCancel(old(Tables()), redactor, id, expected, actor, reason, now)
    {
      ValidParts();
      hide *;
      ghost var db := Tables();
      CancelPaths(db, redactor, id, expected, actor, reason, now);
      var checked := CheckRevision(Tables(), id, expected);
      if checked.Err? {
        BecomeValid();
        return Err(checked.error);
      }
      var rows := Descendants(Tables(), id);
      var changed: seq<ChildTask> := [];
      CancelTurnStarts(redactor, db, rows, id, actor, reason, now);
      var i := 0;
      while i < |rows|
        invariant 0 <= i <= |rows| && CancelTurn(redactor, db, Tables(), rows, i, changed, id, actor, reason, now)
      {
        CancelTurnParts(redactor, db, Tables(), rows, i, changed, id, actor, reason, now);
        CancelTurnMoves(redactor, db, Tables(), rows, i, changed, id, actor, reason, now);
        var current := TaskAt(Tables(), rows[i]);
        TaskAtRevision(Tables(), rows[i]);
        if !Terminal(current.status) {
          var updated := CancelOneTask(current, id, actor, reason, now);
          changed := changed + [updated];
        }
        i := i + 1;
      }
      CancelTurnEnds(redactor, db, Tables(), rows, changed, id, actor, reason, now);
      CancelTurnParts(redactor, db, Tables(), rows, |rows|, changed, id, actor, reason, now);
      BecomeValid();
      return Ok(changed);
    }

    /** Flag a running task, or end one that has not started. */
    method CancelOneTask(current: ChildTask, root: Id, actor: Name, reason: Name, now: int) returns (updated: ChildTask)
      requires Good(redactor, Tables()) && current.id in Tables().tasks && current == TaskAt(Tables(), current.id)
      requires !Terminal(Tables().tasks[current.id].status)
      modifies this
      ensures updated == CancelledTask(redactor, current, reason, now)
      ensures Tables() == CancelOne(old(Tables()), redactor, current.id, root, actor, reason, now)
    {
      hide *;
      ghost var db := Tables();
      CancelledIs(redactor, db, current.id, reason, now);
      CancelWrites(redactor, db, current.id, root, actor, reason, now);
      var next := RequestCancellation(current);
      if current.status != Running {
        next := CancelTask(next, reason, now).value;
      }
      updated := Rewritten(redactor, next, now);
      var written := UpdateSnapshot(current, updated, Terminal(updated.status));
      if Terminal(updated.status) {
        TerminalizeAttempt(updated, None, now);
        InsertDelivery(updated, now);
      }
      var kind := if Terminal(updated.status) then Ended(Status.Cancelled) else CancellationRequested;
      CancelEventIs(updated, root, actor, now);
      InsertEvent(updated, EventRow(kind, actor, Some(root), now));
    }

    /** Send a task that did not complete back to the start. */
    method Retry(id: Id, expected: nat, actor: Name, now: int) returns (out: Outcome<ChildTask>)
      requires Valid()
      modifies this
      ensures Valid()
      ensures Txn(Tables(), out) == Protocol.Retry(old(Tables()), redactor, id, expected, actor, now)
    {
      ValidParts();
      hide *;
      ghost var db := Tables();
      RetrySafe(redactor, db, id, expected, actor, now);
      SafeGood(redactor, db, Protocol.Retry(db, redactor, id, expected, actor, now).db);
      RetryPaths(db, redactor, id, expected, actor, now);
      var checked := CheckRevision(Tables(), id, expected);
      if checked.Err? {
        BecomeValid();
        return Err(checked.error);
      }
      var current := checked.value;
      var retried := RetryTask(current);
      if retried.Err? {
        BecomeValid();
        return Err(retried.error);
      }
      var missing := FirstMissing(Tables(), retried.value.deps);
      if missing.Some? {
        BecomeValid();
        return Err(NotFound(missing.value));
      }
      var initial := InitialState(Tables(), retried.value);
      if initial.Err? {
        BecomeValid();
        return Err(initial.error);
      }
      var updated := Rewritten(redactor, initial.value, now);
      RetryLegal(redactor, db, id, actor, now);
      RetryWrites(redactor, db, updated, actor, now);
      var written := UpdateSnapshot(current, updated, true);
      InsertEvent(updated, EventRow(Retried, actor, None, now));
      BecomeValid();
      return Ok(updated);
    }

    /** End every attempt whose lease has run out; its outcome is unknown. */
    method RecoverExpired(actor: Name, now: int) returns (out: Outcome<seq<ChildTask>>)
      requires Valid()
      modifies this
      ensures Valid()
      ensures Txn(Tables(), out) == Protocol.RecoverExpired(old(Tables()), redactor, actor, now)
    {
      ValidParts();
      hide *;
      var saved := Tables();
      RecoverPaths(redactor, saved, actor, now);
      var rows := ExpiredRows(Tables(), now);
      RecoverTurnStarts(redactor, saved, actor, now);
      RecoverTurnParts(redactor, saved, saved, rows, 0, [], actor, now);
      var fetched := Fetched(Tables(), rows);
      var claims := FetchedClaims(saved, rows);
      var recovered: seq<ChildTask> := [];
      var i := 0;
      while i < |rows|
        invariant 0 <= i <= |rows| && RecoverTurn(redactor, saved, Tables(), rows, i, recovered, actor, now)
      {
        ghost var cur := Tables();
        RecoverTurnParts(redactor, saved, cur, rows, i, recovered, actor, now);
        RecoverTurnRow(redactor, saved, cur, rows, i, recovered, actor, now);
        RecoverTurnMoves(redactor, saved, cur, rows, i, recovered, actor, now);
        StatusInRow(cur, rows[i], Running);
        UnknownIs(cur, redactor, rows[i], now);
        RunningClaimed(redactor, cur, rows[i]);
        var current := fetched[i];
        var updated := Rewritten(redactor, MarkUnknown(current, LEASE_EXPIRED, now).value, now);
        var settled := RecordEnd(current, updated, claims[i], actor, now);
        if settled.Err? {
          Rollback(saved);
          BecomeValid();
          return Err(settled.error);
        }
        recovered := recovered + [updated];
        i := i + 1;
      }
      RecoverTurnEnds(redactor, saved, Tables(), rows, recovered, actor, now);
      RecoverTurnParts(redactor, saved, Tables(), rows, |rows|, recovered, actor, now);
      BecomeValid();
      return Ok(recovered);
    }

    /** Take the oldest completion that is due, after giving up on lapsed claims. */
    method ClaimDelivery(worker: Name, seconds: int, now: int) returns (out: Outcome<Option<DeliveryTicket>>)
      requires Valid()
      modifies this
      ensures Valid()
      ensures Txn(Tables(), out) == Protocol.ClaimDelivery(old(Tables()), worker, seconds, now)
    {
      ValidParts();
      hide *;
      ghost var db := Tables();
      ClaimDeliverySafe(redactor, db, worker, seconds, now);
      SafeGood(redactor, db, Protocol.ClaimDelivery(db, worker, seconds, now).db);
      ClaimDeliveryPaths(db, worker, seconds, now);
      if seconds < 1 {
        BecomeValid();
        return Err(InvalidValue);
      }
      var token := NextToken(Tables());
      GiveUpLapsed(now);
      var due := OldestDue(Tables(), |Tables().sent|);
      if due.None? {
        BecomeValid();
        return Ok(None);
      }
      var claimed := ClaimedDelivery(Tables().outbox[due.value], token, worker, seconds, now);
      WriteClaimed(due.value, claimed);
      BecomeValid();
      return Ok(Some(DeliveryTicket(due.value, token)));
    }

    method GiveUpLapsed(now: int)
      modifies this
      ensures Tables() == LapseDeliveries(old(Tables()), now)
    {
      outbox := map k | k in outbox ::
        var d := outbox[k];
        if d.status == DeliveryClaimed && d.lease.Some? && d.lease.value < now
        then d.(status := DeliveryUnknown, token := None, worker := None, lease := None,
                error := Some("delivery lease expired"), updatedAt := now)
        else d;
    }

    method WriteClaimed(key: TaskKey, claimed: DeliveryRow)
      modifies this
      ensures Tables() == PutDelivery(old(Tables()), key, claimed, 1)
    {
      outbox := outbox[key := claimed];
      uuids := uuids + 1;
    }

    /** Acknowledge or fail exactly the delivery that was claimed. */
    method FinishDelivery(t: DeliveryTicket, delivered: bool, error: Option<string>, now: int) returns (out: Outcome<DeliveryRow>)
      requires Valid()
      modifies this
      ensures Valid()
      ensures Txn(Tables(), out) == Protocol.FinishDelivery(old(Tables()), t, delivered, error, now)
    {
      ValidParts();
      hide *;
      ghost var db := Tables();
      FinishDeliverySafe(redactor, db, t, delivered, error, now);
      SafeGood(redactor, db, Protocol.FinishDelivery(db, t, delivered, error, now).db);
      out := WriteDelivery(t, delivered, error, now);
      BecomeValid();
    }

    method WriteDelivery(t: DeliveryTicket, delivered: bool, error: Option<string>, now: int) returns (out: Outcome<DeliveryRow>)
      modifies this
      ensures Txn(Tables(), out) == Protocol.FinishDelivery(old(Tables()), t, delivered, error, now)
    {
      if t.key !in outbox || outbox[t.key].status != DeliveryClaimed || outbox[t.key].token != Some(t.token)
         || outbox[t.key].lease.None? || outbox[t.key].lease.value < now {
        return Err(DeliveryConflict);
      }
      var d := outbox[t.key].(
        status := if delivered then DeliveryDelivered else DeliveryFailed, token := None, worker := None, lease := None,
        error := error, deliveredAt := if delivered then Some(now) else None, updatedAt := now);
      outbox := outbox[t.key := d];
      return Ok(d);
    }

    lemma ValidParts()
      requires Valid()
      ensures Good(redactor, Tables()) && Idempotent(redactor)
    {}

    lemma BecomeValid()
      requires Good(redactor, Tables()) && Idempotent(redactor)
      ensures Valid()
    {}
  }

  lemma EndTablesAre(db: Db, t: ChildTask, which: Option<nat>, actor: Name, now: int)
    requires t.id in db.tasks
    ensures EndTables(db, t, which, actor, now) ==
      Logged(Owing(Closed(Written(db, t, true), t, which, now), t, now), t, EventRow(Ended(t.status), actor, None, now))
  {}

  lemma TerminalNotWaiting(s: Status)
    ensures Terminal(s) ==> s !in {Pending, Ready, Waiting}
  {}

  lemma CancelEventIs(t: ChildTask, root: Id, actor: Name, now: int)
    ensures CancelEvent(t, root, actor, now) ==
      EventRow(if Terminal(t.status) then Ended(Status.Cancelled) else CancellationRequested, actor, Some(root), now)
  {}

  lemma ExpiredIs(db: Db, r: Redactor, id: Id, now: int)
    requires id in db.tasks
    ensures ExpiredTask(db, r, id, now) == Rewritten(r, EndedAs(TaskAt(db, id), BudgetExhausted, DEADLINE_REASON, now), now)
  {}

  lemma ReadyUnclaimed(db: Db, id: Id)
    requires HasStatus(db, id, Ready)
    ensures id in db.tasks && db.tasks[id].status != Running && ClaimedAttempt(db, id, None)
  {}

  lemma StatusInRow(db: Db, id: Id, s: Status)
    requires HasStatus(db, id, s)
    ensures id in db.tasks && db.tasks[id].status == s
  {}

  lemma CancelPaths(db: Db, r: Redactor, id: Id, expected: nat, actor: Name, reason: Name, now: int)
    ensures AllPresent(db, Descendants(db, id))
    ensures var checked := CheckRevision(db, id, expected);
      && (checked.Err? ==> Protocol.RequestCancel(db, r, id, expected, actor, reason, now) == Txn(db, Err(checked.error)))
      && (checked.Ok? ==>
            var all := CancelRows(db, r, Descendants(db, id), id, actor, reason, now);
            Protocol.RequestCancel(db, r, id, expected, actor, reason, now) == Txn(all.0, Ok(all.1)))
  {
    hide CancelRows;
  }

  lemma RecoverPaths(r: Redactor, db: Db, actor: Name, now: int)
    requires Good(r, db)
    ensures AllPresent(db, ExpiredRows(db, now))
    ensures var o := RecoverRows(db, r, ExpiredRows(db, now), actor, now);
      && (o.Err? ==> Protocol.RecoverExpired(db, r, actor, now) == Txn(db, Err(o.error)))
      && (o.Ok? ==> Protocol.RecoverExpired(db, r, actor, now) == Txn(o.value.0, Ok(o.value.1)))
  {
    hide Good;
    ExpiredRowsGood(r, db, now);
    hide RecoverRows, NoDuplicates, AllRunning;
  }

  /** The attempt columns of a listing, as they are when it is fetched. */
  function FetchedClaims(db: Db, rows: seq<Id>): (claims: seq<Option<nat>>)
    requires AllPresent(db, rows)
    ensures |claims| == |rows|
    ensures forall i :: 0 <= i < |rows| ==>
      && rows[i] in db.tasks
      && claims[i] == (if db.tasks[rows[i]].claim.Some? then Some(db.tasks[rows[i]].claim.value.attemptId) else None)
  {
    assert forall i :: 0 <= i < |rows| ==> rows[i] in rows;
    seq(|rows|, i requires 0 <= i < |rows| =>
      if db.tasks[rows[i]].claim.Some? then Some(db.tasks[rows[i]].claim.value.attemptId) else None)
  }
}

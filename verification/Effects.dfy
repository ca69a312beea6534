/**
 What each call answers and writes, spelled out on the tables: exactly when it succeeds,
 and every field that it then changes.
 */
module Effects {
  import opened Basics
  import opened Redaction
  import opened ChildModels
  import opened Transitions
  import opened Tables
  import opened Listing
  import opened Cascade
  import opened Protocol
  import opened Invariants
  import opened Growth
  import opened Steps
  import opened Transactions
  import opened Runs
  import opened Footprints
  import opened Guarantees
  import opened Conflicts
  import opened Frames
  import opened Delegation

  // ----- Leases -----

  /** The row of the task carries the ticket and runs under a lease that has not run out. */
  lemma BeatableMeans(db: Db, t: Ticket, now: int)
    ensures Beatable(db, t, now) <==>
      && t.taskId in db.tasks && db.tasks[t.taskId].claim.Some?
      && var row, claim := db.tasks[t.taskId], db.tasks[t.taskId].claim.value;
      && claim.token == t.token && claim.worker == t.worker && claim.attemptId == t.attemptId
      && row.status == Running && !row.cancelRequested && now <= claim.lease
  {}

  lemma NewestAttempt(r: Redactor, db: Db, id: Id)
    requires Good(r, db) && id in db.tasks && db.tasks[id].claim.Some?
    ensures (id, db.tasks[id].snapshot.attemptCount) in db.attempts
  {
    GoodParts(r, db);
    hide Good, RowsAgree, Founded, DependencyOrder, HistoryDense, OutboxAgrees, ParallelismBounded, Redacted;
    assert AttemptMatches(db.attempts[(id, db.tasks[id].snapshot.attemptCount)], db.tasks[id].claim.value);
  }

  /** Exactly when a heartbeat succeeds, and all it then changes: the task's row and its newest
      attempt carry a lease that runs from now for the seconds asked, as does the ticket. */
  lemma HeartbeatExtends(r: Redactor, db: Db, t: Ticket, seconds: int, now: int)
    requires Good(r, db)
    ensures var h := Protocol.Heartbeat(db, t, seconds, now);
      && (h.out.Ok? <==>
            && seconds >= 1 && t.taskId in db.tasks && db.tasks[t.taskId].claim.Some?
            && var row, claim := db.tasks[t.taskId], db.tasks[t.taskId].claim.value;
            && claim.token == t.token && claim.worker == t.worker && claim.attemptId == t.attemptId
            && row.status == Running && !row.cancelRequested && now <= claim.lease)
      && (h.out.Err? ==> h.db == db)
      && (h.out.Ok? ==>
            var lease, row := now + seconds * 1_000_000, db.tasks[t.taskId];
            var key := (t.taskId, row.snapshot.attemptCount);
            && h.out.value == t.(lease := lease)
            && key in db.attempts
            && h.db == db.(
                 tasks := db.tasks[t.taskId := row.(updatedAt := now, claim := Some(row.claim.value.(lease := lease)))],
                 attempts := db.attempts[key := db.attempts[key].(updatedAt := now, lease := lease)]))
  {
    hide *;
    HeartbeatPaths(db, t, seconds, now);
    BeatableMeans(db, t, now);
    LeaseIs(now, seconds);
    if seconds >= 1 && Beatable(db, t, now) {
      NewestAttempt(r, db, t.taskId);
      BeatWrites(db, t.taskId, LeaseUntil(now, seconds), now);
    }
  }

  lemma BeatWrites(db: Db, id: Id, lease: int, now: int)
    requires id in db.tasks && db.tasks[id].claim.Some? && (id, db.tasks[id].snapshot.attemptCount) in db.attempts
    ensures var row, key := db.tasks[id], (id, db.tasks[id].snapshot.attemptCount);
      Beat(db, id, lease, now) == db.(
        tasks := db.tasks[id := row.(updatedAt := now, claim := Some(row.claim.value.(lease := lease)))],
        attempts := db.attempts[key := db.attempts[key].(updatedAt := now, lease := lease)])
  {}

  /** The ticket can be used until its lease runs out, and recovery does not take the attempt
      before then; afterwards it does. */
  ghost predicate LeaseRuns(db: Db, t: Ticket, later: int) {
    && (AssertClaim(db, t, later, false).Ok? <==> later <= t.lease)
    && (t.taskId in ExpiredSet(db, later) <==> t.lease < later)
  }

  lemma HeldLeaseRuns(db: Db, t: Ticket, later: int)
    requires HasStatus(db, t.taskId, Running) && !db.tasks[t.taskId].cancelRequested
    requires db.tasks[t.taskId].claim == Some(Claim(t.token, t.worker, t.attemptId, t.lease))
    ensures LeaseRuns(db, t, later)
  {}

  /** After a heartbeat the lease runs for the seconds asked, at whatever time it is tested. */
  lemma HeartbeatHolds(r: Redactor, db: Db, t: Ticket, seconds: int, now: int, later: int)
    requires Good(r, db) && Protocol.Heartbeat(db, t, seconds, now).out.Ok?
    ensures var h := Protocol.Heartbeat(db, t, seconds, now);
      h.out.value.lease == now + seconds * 1_000_000 && LeaseRuns(h.db, h.out.value, later)
  {
    HeartbeatExtends(r, db, t, seconds, now);
    hide Good, Protocol.Heartbeat, LeaseRuns;
    var h := Protocol.Heartbeat(db, t, seconds, now);
    HeldLeaseRuns(h.db, h.out.value, later);
  }

  lemma LeaseIs(now: int, seconds: int)
    ensures LeaseUntil(now, seconds) == now + seconds * 1_000_000
  {}

  lemma StartedIs(r: Redactor, db: Db, id: Id, now: int)
    requires Good(r, db) && HasStatus(db, id, Ready)
    ensures var t, was := StartedTask(db, r, id, now), db.tasks[id].snapshot;
      && t.id == id && CreationPayload(t) == CreationPayload(was) && t.createdAt == was.createdAt
      && t.status == Running && t.revision == was.revision + 1 && t.attemptCount == was.attemptCount + 1
      && !t.cancelRequested && t.reason == None && t.updatedAt == now && t.completedAt == None
      && was.revision == db.tasks[id].revision
  {
    hide Good, RedactPayload, NoDuplicates, RedactResultOption;
    RowFacts(r, db, id);
    RewrittenFacts(r, TaskAt(db, id).(status := Running, attemptCount := TaskAt(db, id).attemptCount + 1, reason := None), now);
    hide Rewritten;
  }

  /** A start hands out a fresh token and attempt under a lease that runs from now for the
      seconds asked; it opens the next attempt, logs it, and changes nothing else. */
  lemma StartOpens(r: Redactor, db: Db, id: Id, expected: nat, worker: Name, seconds: int, now: int)
    requires Good(r, db) && Protocol.Start(db, r, id, expected, worker, seconds, now).out.Ok?
    ensures var s := Protocol.Start(db, r, id, expected, worker, seconds, now);
      && id in db.tasks && id in s.db.tasks
      && var t, row, row', n := s.out.value, db.tasks[id], s.db.tasks[id], db.tasks[id].snapshot.attemptCount + 1;
      && t == Ticket(id, db.uuids, n, worker, db.uuids + 1, now + seconds * 1_000_000)
      && row'.claim == Some(Claim(t.token, worker, t.attemptId, t.lease))
      && row'.status == Running && row'.revision == row.revision + 1 && !row'.cancelRequested
      && row'.snapshot.attemptCount == n && row'.snapshot.reason == None && row'.updatedAt == now
      && CreationPayload(row'.snapshot) == CreationPayload(row.snapshot) && row'.rowid == row.rowid
      && s.db == db.(
           tasks := db.tasks[id := row'],
           attempts := db.attempts[(id, n) := AttemptRow(t.attemptId, worker, t.token, Running, t.lease, None, None, now, now, None)],
           events := db.events[(id, row.revision + 1) := EventRow(AttemptStarted, worker, None, now)],
           uuids := db.uuids + 2)
  {
    StartUnfold(db, r, id, expected, worker, seconds, now);
    LeaseIs(now, seconds);
    hide Good, Protocol.Start, StartedTask, DepsCompleted, ParentHasRoom, LeaseUntil;
    StartedIs(r, db, id, now);
  }

  lemma StartHolds(r: Redactor, db: Db, id: Id, expected: nat, worker: Name, seconds: int, now: int, later: int)
    requires Good(r, db) && Protocol.Start(db, r, id, expected, worker, seconds, now).out.Ok?
    ensures var s := Protocol.Start(db, r, id, expected, worker, seconds, now);
      s.out.value.lease == now + seconds * 1_000_000 && LeaseRuns(s.db, s.out.value, later)
  {
    StartOpens(r, db, id, expected, worker, seconds, now);
    hide Good, Protocol.Start, LeaseRuns;
    var s := Protocol.Start(db, r, id, expected, worker, seconds, now);
    HeldLeaseRuns(s.db, s.out.value, later);
  }

  // ----- A task that ends -----

  lemma {:induction false} BlockRowsOwe(db: Db, edges: seq<(Id, Id)>, actor: Name, now: int)
    ensures var after := BlockRows(db, edges, actor, now); after.outbox == db.outbox && after.sent == db.sent
    decreases |edges|
  {
    if edges != [] {
      var (cause, id) := edges[0];
      if id in db.tasks && cause in db.tasks {
        assert BlockedFor(db, cause, id, now).status == Blocked by { hide BlockReason; }
        hide BlockedFor, AttemptsAfter;
        var mid := Advance(db, BlockedFor(db, cause, id, now), None, EventRow(MadeBlocked, actor, Some(cause), now));
        BlockRowsOwe(mid, edges[1..], actor, now);
      }
    }
  }

  lemma {:induction false} ReadyRowsOwe(db: Db, rows: seq<Id>, completed: Id, actor: Name, now: int)
    requires AllPresent(db, rows)
    ensures var o := ReadyRows(db, rows, completed, actor, now);
      o.Ok? ==> o.value.outbox == db.outbox && o.value.sent == db.sent
    decreases |rows|
  {
    if rows != [] {
      assert rows[0] in db.tasks;
      hide DepsCompleted, AttemptsAfter;
      if !DepsCompleted(db, Deps(db, rows[0])) {
        ReadyRowsOwe(db, rows[1..], completed, actor, now);
      } else if MarkReady(TaskAt(db, rows[0])).Ok? {
        var mid := ReadyOne(db, rows[0], completed, actor, now);
        forall id | id in rows[1..] ensures id in mid.tasks { assert id in rows && id in db.tasks.Keys; }
        ReadyRowsOwe(mid, rows[1..], completed, actor, now);
      }
    }
  }

  /** Waking or blocking dependents owes no delivery. */
  lemma SettleOwes(mid: Db, id: Id, actor: Name, now: int)
    ensures var o := Settle(mid, id, actor, now); o.Ok? ==> o.value.outbox == mid.outbox && o.value.sent == mid.sent
  {
    hide BlockRows, ReadyRows, Dependents;
    if HasStatus(mid, id, Completed) {
      ReadyRowsOwe(mid, Picked(Dependents(mid, id), WithStatus(mid, {Pending})), id, actor, now);
    } else {
      hide Walk;
      match Walk(DependentGraph(mid), id, Blockable(mid))
      case Conflict(_) =>
      case Done(edges, _) => BlockRowsOwe(mid, edges, actor, now);
    }
  }

  /** A move of a task to `t` is on record: in every column of its row, in its event, and, for
      an end, in a delivery that nobody has claimed yet. */
  ghost predicate OnRecord(db: Db, t: ChildTask, claim: Option<Claim>, event: EventRow) {
    && t.id in db.tasks
    && var row, key := db.tasks[t.id], (t.id, t.revision);
    && row.snapshot == t && row.status == t.status && row.revision == t.revision && row.cancelRequested == t.cancelRequested
    && row.updatedAt == t.updatedAt && row.completedAt == t.completedAt && row.claim == claim
    && key in db.events && db.events[key] == event
    && (Terminal(t.status) ==>
          && key in db.outbox
          && db.outbox[key] == DeliveryRow(DeliveryPending, None, None, None, 0, None, event.at, event.at, None))
  }

  ghost predicate DeliveriesKept(db: Db, db': Db) {
    forall k :: k in db.outbox ==> k in db'.outbox && db'.outbox[k] == db.outbox[k]
  }

  lemma AdvanceRecords(db: Db, t: ChildTask, claim: Option<Claim>, event: EventRow)
    requires t.id in db.tasks
    ensures OnRecord(Advance(db, t, claim, event), t, claim, event)
  {}

  lemma RecordStays(db: Db, db': Db, t: ChildTask, claim: Option<Claim>, event: EventRow)
    requires OnRecord(db, t, claim, event) && LaterTasks(db, db') && DeliveriesKept(db, db')
    requires t.id in db'.tasks && db'.tasks[t.id] == db.tasks[t.id]
    ensures OnRecord(db', t, claim, event)
  {
    hide LaterRow;
  }

  lemma TerminalSettled(mid: Db, t: ChildTask)
    requires HasStatus(mid, t.id, t.status) && Terminal(t.status)
    ensures t.id !in Settled(mid, t)
  {
    SettledWaits(mid, t);
    hide Settled;
  }

  lemma OthersRow(mid: Db, db': Db, touched: set<Id>, id: Id)
    requires OthersKept(mid, db', touched) && id !in touched && id in mid.tasks
    ensures id in db'.tasks && db'.tasks[id] == mid.tasks[id]
  {
    assert id in db'.tasks.Keys;
  }

  lemma SameDeliveries(db: Db, db': Db)
    requires db'.outbox == db.outbox
    ensures DeliveriesKept(db, db')
  {}

  lemma AdvanceEnds(db: Db, t: ChildTask, actor: Name, now: int)
    requires t.id in db.tasks && Terminal(t.status)
    ensures var mid := AfterEnd(db, t, actor, now);
      && mid.outbox == db.outbox[(t.id, t.revision) := DeliveryRow(DeliveryPending, None, None, None, 0, None, now, now, None)]
      && mid.sent == db.sent + [(t.id, t.revision)]
  {}

  /** An end, however it comes about, is recorded at once, and owes one delivery and no other. */
  lemma EndOnRecord(r: Redactor, db: Db, t: ChildTask, actor: Name, now: int)
    requires Good(r, db) && LegalEnd(db, t, actor, now) && EndAndSettle(db, t, actor, now).Ok?
    ensures var db' := EndAndSettle(db, t, actor, now).value;
      && OnRecord(db', t, None, EventRow(Ended(t.status), actor, None, now))
      && db'.outbox == db.outbox[(t.id, t.revision) := DeliveryRow(DeliveryPending, None, None, None, 0, None, now, now, None)]
      && db'.sent == db.sent + [(t.id, t.revision)]
  {
    hide *;
    LegalEndTerminal(db, t, actor, now);
    var mid, db' := AfterEnd(db, t, actor, now), EndAndSettle(db, t, actor, now).value;
    EndAndSettleSafe(r, db, t, actor, now);
    SettleSafe(r, mid, t, actor, now);
    SettleOwes(mid, t.id, actor, now);
    AdvanceEnds(db, t, actor, now);
    AfterEndRecords(db, t, actor, now);
    TerminalSettled(mid, t);
    StatusInTable(mid, t);
    OthersRow(mid, db', Settled(mid, t), t.id);
    SafeTasks(r, mid, db');
    SameDeliveries(mid, db');
    RecordStays(mid, db', t, None, EventRow(Ended(t.status), actor, None, now));
  }

  lemma AfterEndRecords(db: Db, t: ChildTask, actor: Name, now: int)
    requires t.id in db.tasks
    ensures OnRecord(AfterEnd(db, t, actor, now), t, None, EventRow(Ended(t.status), actor, None, now))
  {
    hide Advance, OnRecord;
    AdvanceRecords(db, t, None, EventRow(Ended(t.status), actor, None, now));
  }

  /** The attempt that ran closes as its task ended, with its result and the reason as error. */
  lemma EndCloses(r: Redactor, db: Db, t: ChildTask, actor: Name, now: int)
    requires Good(r, db) && LegalEnd(db, t, actor, now) && EndAndSettle(db, t, actor, now).Ok?
    requires HasStatus(db, t.id, Running)
    ensures var db', key := EndAndSettle(db, t, actor, now).value, (t.id, t.attemptCount);
      && key in db.attempts && key in db'.attempts
      && db'.attempts[key] == db.attempts[key].(
           status := t.status, result := t.result, error := t.reason, updatedAt := now, completedAt := Some(now))
  {
    hide *;
    LegalEndTerminal(db, t, actor, now);
    var mid, db', key := AfterEnd(db, t, actor, now), EndAndSettle(db, t, actor, now).value, (t.id, t.attemptCount);
    LegalEndCount(db, t, actor, now);
    RunningClaimed(r, db, t.id);
    NewestAttempt(r, db, t.id);
    AfterEndCloses(db, t, actor, now);
    EndAndSettleSafe(r, db, t, actor, now);
    SettleSafe(r, mid, t, actor, now);
    SafeLaterAttempts(r, mid, db');
    TerminalNotRunning(t.status);
    AttemptsEndOnce(mid, db', key);
  }

  lemma LegalEndCount(db: Db, t: ChildTask, actor: Name, now: int)
    requires LegalEnd(db, t, actor, now)
    ensures t.id in db.tasks && t.attemptCount == db.tasks[t.id].snapshot.attemptCount
  {}

  lemma AfterEndCloses(db: Db, t: ChildTask, actor: Name, now: int)
    requires HasStatus(db, t.id, Running) && Terminal(t.status) && (t.id, t.attemptCount) in db.attempts
    ensures var mid, key := AfterEnd(db, t, actor, now), (t.id, t.attemptCount);
      && key in mid.attempts
      && mid.attempts[key] == db.attempts[key].(
           status := t.status, result := t.result, error := t.reason, updatedAt := now, completedAt := Some(now))
  {}

  lemma SafeLaterAttempts(r: Redactor, db: Db, db': Db)
    requires Safe(r, db, db')
    ensures LaterAttempts(db, db')
  {
    hide Good, LaterTasks, LaterAttempts, LaterOutbox;
  }

  lemma TerminalNotRunning(s: Status)
    requires Terminal(s)
    ensures s != Running
  {}

  // ----- Finishing an attempt -----

  /** The text that is kept of what a worker reports. */
  function ReportText(reported: string, default: Name): string {
    if reported == "" then default else reported
  }

  /** How a running task ends on a worker's report: a requested cancellation wins, and otherwise
      the report decides.  Result and text are kept, redacted. */
  predicate EndsOn(r: Redactor, was: ChildTask, u: ChildTask, status: Status, result: Option<TaskResult>, reason: string, now: int) {
    && CreationPayload(u) == CreationPayload(was) && u.createdAt == was.createdAt && u.attemptCount == was.attemptCount
    && u.revision == was.revision + 1 && u.updatedAt == now && u.completedAt == Some(now) && u.cancelRequested == was.cancelRequested
    && (was.cancelRequested ==>
          && u.status == Status.Cancelled && u.reason == Some(r.text(CANCEL_OBSERVED))
          && u.result == RedactResultOption(r, RedactResultOption(r, result)))
    && (!was.cancelRequested && status == Completed ==>
          && u.status == Completed && u.reason == None && result.Some?
          && u.result == Some(RedactResult(r, RedactResult(r, result.value))))
    && (!was.cancelRequested && status == BudgetExhausted ==>
          && u.status == BudgetExhausted && u.reason == Some(r.text(ReportText(reason, "Budget exhausted.")))
          && u.result == RedactResultOption(r, was.result))
    && (!was.cancelRequested && status !in {Completed, BudgetExhausted} ==>
          && u.status == Failed && u.reason == Some(r.text(ReportText(reason, "Child execution failed.")))
          && u.result == RedactResultOption(r, was.result))
  }

  lemma EndStateMeans(r: Redactor, was: ChildTask, status: Status, result: Option<TaskResult>, reason: string, now: int)
    requires was.status == Running && EndState(r, was, status, result, reason, now).Ok?
    requires RedactPayload(r, CreationPayload(was)) == CreationPayload(was)
    ensures EndsOn(r, was, Rewritten(r, EndState(r, was, status, result, reason, now).value, now), status, result, reason, now)
  {
    hide RedactPayload, RedactResult, CANCEL_OBSERVED;
    EndStateFacts(r, was, status, result, reason, now);
    RewrittenFacts(r, EndState(r, was, status, result, reason, now).value, now);
    hide Rewritten;
  }

  lemma RunningTask(r: Redactor, db: Db, id: Id)
    requires Good(r, db) && id in db.tasks
    ensures RedactPayload(r, CreationPayload(TaskAt(db, id))) == CreationPayload(TaskAt(db, id))
    ensures TaskAt(db, id).status == db.tasks[id].status && TaskAt(db, id).attemptCount == db.tasks[id].snapshot.attemptCount
    ensures TaskAt(db, id).revision == db.tasks[id].revision && TaskAt(db, id).cancelRequested == db.tasks[id].cancelRequested
  {
    hide Good, RedactPayload;
    RowFacts(r, db, id);
  }

  /** A `finish` that succeeds ends the held attempt's task as reported, unless a cancellation
      was requested; row, attempt, event and one new delivery say so together. */
  lemma FinishRecords(r: Redactor, db: Db, t: Ticket, status: Status, result: Option<TaskResult>, reason: string, actor: Name, now: int)
    requires Good(r, db) && Protocol.Finish(db, r, t, status, result, reason, actor, now).out.Ok?
    ensures var f := Protocol.Finish(db, r, t, status, result, reason, actor, now);
      && t.taskId in db.tasks
      && var u, key := f.out.value, (t.taskId, db.tasks[t.taskId].snapshot.attemptCount);
      && u.id == t.taskId && EndsOn(r, TaskAt(db, t.taskId), u, status, result, reason, now)
      && OnRecord(f.db, u, None, EventRow(Ended(u.status), actor, None, now))
      && f.db.sent == db.sent + [(u.id, u.revision)]
      && key in db.attempts && key in f.db.attempts
      && f.db.attempts[key] == db.attempts[key].(
           status := u.status, result := u.result, error := u.reason, updatedAt := now, completedAt := Some(now))
  {
    var f := Protocol.Finish(db, r, t, status, result, reason, actor, now);
    hide Good, LegalEnd, EndState, EndAndSettle, Rewritten, OnRecord, EndsOn, TaskAt, Protocol.Finish;
    FinishUnfold(r, db, t, status, result, reason, actor, now);
    EndLegal(r, db, t, status, result, reason, actor, now);
    RunningTask(r, db, t.taskId);
    EndStateMeans(r, TaskAt(db, t.taskId), status, result, reason, now);
    EndOnRecord(r, db, f.out.value, actor, now);
    EndedRowOf(r, db, t, status, result, reason, now);
    EndCloses(r, db, f.out.value, actor, now);
  }

  // ----- Deadlines -----

  lemma ExpireChecks(db: Db, r: Redactor, id: Id, expected: nat, actor: Name, now: int)
    ensures var e := ExpireDeadline(db, r, id, expected, actor, now);
      && (e.out == Ok(false) <==>
            && id in db.tasks && db.tasks[id].revision == expected
            && (db.tasks[id].status != Ready || db.tasks[id].snapshot.spec.deadline.None? || now < db.tasks[id].snapshot.spec.deadline.value))
      && (e.out == Ok(true) <==>
            && id in db.tasks && db.tasks[id].revision == expected && db.tasks[id].status == Ready
            && db.tasks[id].snapshot.spec.deadline.Some? && db.tasks[id].snapshot.spec.deadline.value <= now
            && EndAndSettle(db, ExpiredTask(db, r, id, now), actor, now).Ok?)
  {
    hide EndAndSettle, Rewritten, DEADLINE_REASON;
  }

  /** Exactly when a claim ends its task instead: a READY task, at the expected revision, whose
      deadline has come, unless blocking its dependents is rejected. */
  lemma ExpireExactly(r: Redactor, db: Db, id: Id, expected: nat, actor: Name, now: int)
    requires Good(r, db)
    ensures var e := ExpireDeadline(db, r, id, expected, actor, now);
      && (e.out == Ok(true) <==>
            && HasStatus(db, id, Ready) && db.tasks[id].revision == expected
            && db.tasks[id].snapshot.spec.deadline.Some? && db.tasks[id].snapshot.spec.deadline.value <= now && !Tangled(db, id))
      && (e.out == Ok(false) <==>
            && id in db.tasks && db.tasks[id].revision == expected
            && (db.tasks[id].status != Ready || db.tasks[id].snapshot.spec.deadline.None? || now < db.tasks[id].snapshot.spec.deadline.value))
  {
    hide Good, Tangled, ExpireDeadline, EndAndSettle, LegalEnd, ExpiredTask;
    ExpireChecks(db, r, id, expected, actor, now);
    if HasStatus(db, id, Ready) {
      ExpiryIsLegal(r, db, id, actor, now);
      ExpiredIs(r, db, id, now);
      EndRaisesExactly(r, db, ExpiredTask(db, r, id, now), actor, now);
    }
  }

  lemma ExpiryIsLegal(r: Redactor, db: Db, id: Id, actor: Name, now: int)
    requires Good(r, db) && HasStatus(db, id, Ready)
    ensures LegalEnd(db, ExpiredTask(db, r, id, now), actor, now)
  {
    hide Good, LegalEnd, Rewritten, DEADLINE_REASON;
    ExpiryLegal(r, db, id, actor, now);
  }

  lemma ExpiredIs(r: Redactor, db: Db, id: Id, now: int)
    requires Good(r, db) && HasStatus(db, id, Ready)
    ensures var u, was := ExpiredTask(db, r, id, now), TaskAt(db, id);
      && u.id == id && CreationPayload(u) == CreationPayload(was) && u.createdAt == was.createdAt
      && u.attemptCount == was.attemptCount && u.revision == was.revision + 1 && !u.cancelRequested
      && u.status == BudgetExhausted && u.reason == Some(r.text(DEADLINE_REASON))
      && u.updatedAt == now && u.completedAt == Some(now)
  {
    hide Good, RedactPayload, NoDuplicates, DEADLINE_REASON, RedactResultOption;
    RowFacts(r, db, id);
    RewrittenFacts(r, EndedAs(TaskAt(db, id), BudgetExhausted, DEADLINE_REASON, now), now);
    hide Rewritten;
  }

  /** A task whose deadline has come ends as BUDGET_EXHAUSTED, and row, event and delivery say so. */
  lemma ExpireRecords(r: Redactor, db: Db, id: Id, expected: nat, actor: Name, now: int)
    requires Good(r, db) && ExpireDeadline(db, r, id, expected, actor, now).out == Ok(true)
    ensures var after := ExpireDeadline(db, r, id, expected, actor, now).db;
      && id in db.tasks && id in after.tasks
      && var u, was := after.tasks[id].snapshot, TaskAt(db, id);
      && CreationPayload(u) == CreationPayload(was) && u.attemptCount == was.attemptCount && u.revision == was.revision + 1
      && u.status == BudgetExhausted && u.reason == Some(r.text(DEADLINE_REASON)) && u.completedAt == Some(now)
      && OnRecord(after, u, None, EventRow(Ended(BudgetExhausted), actor, None, now))
  {
    hide Good, ExpireDeadline, EndAndSettle, LegalEnd, ExpiredTask, OnRecord, TaskAt;
    ExpireUnfold(db, r, id, expected, actor, now);
    ExpiryIsLegal(r, db, id, actor, now);
    ExpiredIs(r, db, id, now);
    EndOnRecord(r, db, ExpiredTask(db, r, id, now), actor, now);
    RecordRow(ExpireDeadline(db, r, id, expected, actor, now).db, ExpiredTask(db, r, id, now), None,
              EventRow(Ended(BudgetExhausted), actor, None, now));
  }

  lemma RecordRow(db: Db, t: ChildTask, claim: Option<Claim>, event: EventRow)
    requires OnRecord(db, t, claim, event)
    ensures t.id in db.tasks && db.tasks[t.id].snapshot == t
  {}

  // ----- Retrying -----

  /** Some dependency has ended without completing. */
  ghost predicate SomeDead(db: Db, deps: seq<Id>) {
    exists d :: d in deps && d in db.tasks && db.tasks[d].status in {Failed, Status.Cancelled, BudgetExhausted, Unknown}
  }

  lemma DeadExactly(db: Db, deps: seq<Id>)
    ensures DeadDeps(db, deps) != [] <==> SomeDead(db, deps)
  {
    if SomeDead(db, deps) {
      var d :| d in deps && d in db.tasks && db.tasks[d].status in {Failed, Status.Cancelled, BudgetExhausted, Unknown};
      assert d in DeadDeps(db, deps);
    }
    if DeadDeps(db, deps) != [] {
      assert DeadDeps(db, deps)[0] in DeadDeps(db, deps);
    }
  }

  /** The status a task waits in is what its dependencies say, and why it is blocked is noted. */
  ghost predicate Placed(db: Db, t: ChildTask) {
    && (t.status == Ready <==> DepsCompleted(db, t.deps))
    && (t.status == Blocked <==> !DepsCompleted(db, t.deps) && SomeDead(db, t.deps))
    && (t.status == Pending <==> !DepsCompleted(db, t.deps) && !SomeDead(db, t.deps))
    && (t.status == Blocked <==> t.reason.Some?)
  }

  lemma InitialStatePlaces(db: Db, t: ChildTask)
    requires t.status == Pending && !t.cancelRequested && t.reason == None
    ensures InitialState(db, t).Ok? && Placed(db, InitialState(db, t).value)
    ensures var i := InitialState(db, t).value; i == t.(status := i.status, reason := i.reason)
  {
    DeadExactly(db, t.deps);
    hide DepsCompleted, DeadDeps, SomeDead, OperatorReason;
  }

  lemma RetryChecks(db: Db, r: Redactor, id: Id, expected: nat, actor: Name, now: int)
    ensures Protocol.Retry(db, r, id, expected, actor, now).out.Ok? <==>
      && id in db.tasks && db.tasks[id].revision == expected
      && db.tasks[id].status in {Failed, Blocked, BudgetExhausted, Unknown}
      && FirstMissing(db, Deps(db, id)).None? && InitialState(db, RetryTask(TaskAt(db, id)).value).Ok?
  {
    hide Advance, Rewritten, FirstMissing, InitialState;
  }

  lemma DepsPresent(r: Redactor, db: Db, id: Id)
    requires Good(r, db) && id in db.tasks
    ensures FirstMissing(db, Deps(db, id)).None?
  {
    GoodParts(r, db);
    hide Good, RowsAgree, DependencyOrder, AttemptsAgree, HistoryDense, OutboxAgrees, ParallelismBounded, Redacted;
    forall d | d in Deps(db, id) ensures d in db.tasks { assert Earlier(db, d, id); }
  }

  /** Exactly when a retry succeeds: the task is at the expected revision in a status that can
      be retried, which COMPLETED and CANCELLED are not. */
  lemma RetryExactly(r: Redactor, db: Db, id: Id, expected: nat, actor: Name, now: int)
    requires Good(r, db)
    ensures Protocol.Retry(db, r, id, expected, actor, now).out.Ok? <==>
      && id in db.tasks && db.tasks[id].revision == expected
      && db.tasks[id].status in {Failed, Blocked, BudgetExhausted, Unknown}
  {
    hide Good, Protocol.Retry, InitialState, FirstMissing;
    RetryChecks(db, r, id, expected, actor, now);
    if id in db.tasks && db.tasks[id].status in {Failed, Blocked, BudgetExhausted, Unknown} {
      DepsPresent(r, db, id);
      InitialStatePlaces(db, RetryTask(TaskAt(db, id)).value);
    }
  }

  /** A retried task waits again as its dependencies stand, with nothing left of how it ended;
      its attempts and deliveries stay, and nothing else changes. */
  lemma RetryRecords(r: Redactor, db: Db, id: Id, expected: nat, actor: Name, now: int)
    requires Good(r, db) && Protocol.Retry(db, r, id, expected, actor, now).out.Ok?
    ensures var t := Protocol.Retry(db, r, id, expected, actor, now);
      && id in db.tasks && id in t.db.tasks
      && var u, was := t.out.value, TaskAt(db, id);
      && u.id == id && CreationPayload(u) == CreationPayload(was) && u.createdAt == was.createdAt
      && u.attemptCount == was.attemptCount && u.revision == was.revision + 1 && u.updatedAt == now
      && Placed(db, u) && u.result == None && u.completedAt == None && !u.cancelRequested
      && OnRecord(t.db, u, None, EventRow(Retried, actor, None, now))
      && t.db == db.(tasks := db.tasks[id := t.db.tasks[id]],
                     events := db.events[(id, u.revision) := EventRow(Retried, actor, None, now)])
  {
    var t := Protocol.Retry(db, r, id, expected, actor, now);
    hide Good, Protocol.Retry, RetryTask, InitialState, Rewritten, Advance, OnRecord, Placed, TaskAt;
    RetryExactly(r, db, id, expected, actor, now);
    RetryUnfold(db, r, id, expected, actor, now);
    RetriedIs(r, db, id, now);
    AdvanceRecords(db, t.out.value, None, EventRow(Retried, actor, None, now));
    PlacedQuiet(db, t.out.value);
    QuietAdvance(db, t.out.value, EventRow(Retried, actor, None, now));
  }

  lemma RetriedIs(r: Redactor, db: Db, id: Id, now: int)
    requires Good(r, db) && id in db.tasks && RetryTask(TaskAt(db, id)).Ok?
    requires db.tasks[id].status in {Failed, Blocked, BudgetExhausted, Unknown}
    requires InitialState(db, RetryTask(TaskAt(db, id)).value).Ok?
    ensures var u, was := Rewritten(r, InitialState(db, RetryTask(TaskAt(db, id)).value).value, now), TaskAt(db, id);
      && u.id == id && CreationPayload(u) == CreationPayload(was) && u.createdAt == was.createdAt
      && u.attemptCount == was.attemptCount && u.revision == was.revision + 1 && u.updatedAt == now
      && Placed(db, u) && u.result == None && u.completedAt == None && !u.cancelRequested
      && db.tasks[id].status != Running
  {
    var pending := RetryTask(TaskAt(db, id)).value;
    var i := InitialState(db, pending).value;
    hide Good, RedactPayload, InitialState, Rewritten, Placed, TaskAt;
    InitialStatePlaces(db, pending);
    RunningTask(r, db, id);
    RewrittenFacts(r, i, now);
    SamePlace(db, i, Rewritten(r, i, now));
  }

  lemma SamePlace(db: Db, t: ChildTask, u: ChildTask)
    requires Placed(db, t) && u.status == t.status && u.deps == t.deps && (u.reason.Some? <==> t.reason.Some?)
    ensures Placed(db, u)
  {
    hide SomeDead, DepsCompleted;
  }

  lemma PlacedQuiet(db: Db, t: ChildTask)
    requires Placed(db, t)
    ensures t.status in {Pending, Ready, Blocked}
  {
    hide DepsCompleted, SomeDead;
  }

  lemma QuietAdvance(db: Db, t: ChildTask, event: EventRow)
    requires t.id in db.tasks && db.tasks[t.id].status != Running && t.status in {Pending, Ready, Blocked}
    ensures var db' := Advance(db, t, None, event);
      && t.id in db'.tasks
      && db' == db.(tasks := db.tasks[t.id := db'.tasks[t.id]], events := db.events[(t.id, t.revision) := event])
  {}

  // ----- Creating -----

  lemma StoreNewChecks(db: Db, r: Redactor, t: ChildTask, actor: Name, key: Option<string>)
    ensures StoreNew(db, r, t, actor, key).out.Ok? <==>
      && ValidateLineage(db, t).Ok? && FirstMissing(db, t.deps).None? && InitialState(db, t).Ok?
      && RedactTask(r, InitialState(db, t).value).id !in db.tasks
  {
    hide InitialState, ValidateLineage, RedactTask, Insert, FirstMissing;
  }

  lemma CreateIsStoreNew(db: Db, r: Redactor, t: ChildTask, actor: Name, key: Option<string>)
    requires key.Some? ==> key.value !in db.creationKeys
    ensures var c := Protocol.Create(db, r, t, actor, key);
      && (t.revision != 0 || t.status != Pending ==> c == Txn(db, Err(InvalidValue)))
      && (t.revision == 0 && t.status == Pending ==> c == StoreNew(db, r, t, actor, key))
  {
    hide StoreNew, RedactTask;
  }

  /** Exactly when new work is taken in: it is pending at revision 0, its lineage fits under a
      parent that takes children, its dependencies exist, and its id is free. */
  lemma CreateExactly(r: Redactor, db: Db, t: ChildTask, actor: Name, key: Option<string>)
    requires Good(r, db) && FreshTask(t) && t.reason == None && (key.Some? ==> key.value !in db.creationKeys)
    ensures Protocol.Create(db, r, t, actor, key).out.Ok? <==>
      && t.revision == 0 && t.status == Pending
      && LineageFits(db, t) && (t.lineage.parent.Some? ==> TakesChildren(db, t.lineage.parent.value))
      && (forall d :: d in t.deps ==> d in db.tasks)
      && r.text(t.id) !in db.tasks
  {
    hide Good, Protocol.Create, StoreNew, ValidateLineage, InitialState, LineageFits, TakesChildren, RedactTask;
    CreateIsStoreNew(db, r, t, actor, key);
    StoreNewChecks(db, r, t, actor, key);
    IdsInRows(r, db);
    LineageExactly(db, t);
    if t.status == Pending {
      InitialStatePlaces(db, t);
      RedactTaskParts(r, InitialState(db, t).value);
    }
  }

  lemma InsertRecords(db: Db, t: ChildTask, key: Option<string>, event: EventRow)
    requires !Terminal(t.status) && t.revision == 0
    ensures var db' := Insert(db, t, key, event);
      && t.id in db'.tasks && OnRecord(db', t, None, event) && db'.tasks[t.id].rowid == |db.ids|
      && db' == db.(ids := db.ids + [t.id], tasks := db.tasks[t.id := db'.tasks[t.id]],
                    creationKeys := if key.Some? then db.creationKeys[key.value := t.id] else db.creationKeys,
                    events := db.events[(t.id, 0) := event])
  {}

  lemma StoredIs(r: Redactor, t: ChildTask)
    ensures var u := RedactTask(r, t);
      && CreationPayload(u) == RedactPayload(r, CreationPayload(t))
      && u == t.(id := u.id, spec := u.spec, lineage := u.lineage, deps := u.deps, links := u.links, result := u.result, reason := u.reason)
      && (u.reason.Some? <==> t.reason.Some?)
  {
    hide RedactSpec;
  }

  /** A creation stores the redacted work once, under its key, waiting as its dependencies
      stand, and changes nothing else. */
  lemma CreateRecords(r: Redactor, db: Db, t: ChildTask, actor: Name, key: Option<string>)
    requires Good(r, db) && Idempotent(r) && FreshTask(t) && t.reason == None && (key.Some? ==> key.value !in db.creationKeys)
    requires Protocol.Create(db, r, t, actor, key).out.Ok?
    ensures var c := Protocol.Create(db, r, t, actor, key);
      var u := c.out.value;
      && CreationPayload(u) == RedactPayload(r, CreationPayload(t)) && Placed(db, u)
      && u.createdAt == t.createdAt && u.revision == 0 && u.attemptCount == 0 && !u.cancelRequested && u.completedAt == None
      && u.id in c.db.tasks && OnRecord(c.db, u, None, EventRow(Created, actor, None, t.createdAt))
      && c.db == db.(ids := db.ids + [u.id], tasks := db.tasks[u.id := c.db.tasks[u.id]],
                     creationKeys := if key.Some? then db.creationKeys[key.value := u.id] else db.creationKeys,
                     events := db.events[(u.id, 0) := EventRow(Created, actor, None, t.createdAt)])
  {
    var c := Protocol.Create(db, r, t, actor, key);
    hide Good, Idempotent, Protocol.Create, StoreNew, ValidateLineage, InitialState, FirstMissing, RedactTask, RedactPayload, OnRecord, Placed;
    hide Insert, NoDuplicates;
    CreateIsStoreNew(db, r, t, actor, key);
    StoreNewUnfold(db, r, t, actor, key);
    InitialStatePlaces(db, t);
    StoredFacts(r, db, t);
    StoredIs(r, InitialState(db, t).value);
    SamePlace(db, InitialState(db, t).value, c.out.value);
    PlacedQuiet(db, c.out.value);
    InsertRecords(db, c.out.value, key, EventRow(Created, actor, None, t.createdAt));
  }
}

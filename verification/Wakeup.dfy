/**
 Wake-ups.  A PENDING task always waits for a dependency that has not completed,
 whatever runs.  It never waits for one that ended badly, unless a cancellation
 ends a task whose PENDING dependent lies outside the cancelled subtree:
 `request_cancel` does not cascade to dependents, and nothing else repairs it.
 */
module Wakeup {
  import opened Basics
  import opened Redaction
  import opened ChildModels
  import opened Tables
  import opened Protocol
  import opened Invariants
  import opened Growth
  import opened Steps
  import opened Transactions
  import opened Runs
  import opened Footprints

  /** No lost wake-up: what still waits has something to wait for. */
  ghost predicate Waits(db: Db) {
    forall id :: id in db.tasks && db.tasks[id].status == Pending ==> !DepsCompleted(db, Deps(db, id))
  }

  /** No stranding: what waits does not wait for a task that ended badly. */
  ghost predicate NoneStranded(db: Db) {
    forall id, d :: id in db.tasks && db.tasks[id].status == Pending && d in Deps(db, id) && d in db.tasks ==>
      !Dead(db.tasks[d].status)
  }

  // ----- Ends -----

  lemma EndKeepsWaits(db: Db, db': Db, t: ChildTask)
    requires EndShape(db, db', t) && Waits(db) && Terminal(t.status)
    ensures Waits(db')
  {
    forall id | id in db'.tasks && db'.tasks[id].status == Pending ensures !DepsCompleted(db', Deps(db', id)) {
      assert id in db.tasks.Keys && id != t.id && FollowedBy(db.tasks[id], db'.tasks[id], t);
      if t.id !in Deps(db', id) {
        var d :| d in Deps(db, id) && !HasStatus(db, d, Completed);
        assert !HasStatus(db', d, Completed) by {
          if d in db'.tasks { assert d in db.tasks.Keys && FollowedBy(db.tasks[d], db'.tasks[d], t); }
        }
      }
    }
  }

  lemma EndKeepsUnstranded(db: Db, db': Db, t: ChildTask)
    requires EndShape(db, db', t) && NoneStranded(db) && Terminal(t.status)
    ensures NoneStranded(db')
  {
    forall id, d | id in db'.tasks && db'.tasks[id].status == Pending && d in Deps(db', id) && d in db'.tasks
      ensures !Dead(db'.tasks[d].status)
    {
      assert id in db.tasks.Keys && id != t.id && FollowedBy(db.tasks[id], db'.tasks[id], t);
      assert d in db.tasks.Keys;
      if d != t.id {
        assert FollowedBy(db.tasks[d], db'.tasks[d], t);
        assert !Dead(db.tasks[d].status);
      }
    }
  }

  // ----- Single moves -----

  lemma MoveKeepsWaits(db: Db, db': Db, t: ChildTask)
    requires OneMove(db, db', t) && Waits(db) && t.deps == Deps(db, t.id)
    requires t.status != Completed
    requires t.status == Pending ==> !DepsCompleted(db, Deps(db, t.id)) && db.tasks[t.id].status != Completed
    ensures Waits(db')
  {
    forall id | id in db'.tasks && db'.tasks[id].status == Pending ensures !DepsCompleted(db', Deps(db', id)) {
      assert id in db.tasks.Keys;
      assert Deps(db', id) == Deps(db, id);
      var d :| d in Deps(db, id) && !HasStatus(db, d, Completed);
      assert !HasStatus(db', d, Completed) by { assert d in db'.tasks ==> d in db.tasks.Keys; }
    }
  }

  lemma MoveKeepsUnstranded(db: Db, db': Db, t: ChildTask)
    requires OneMove(db, db', t) && NoneStranded(db) && t.deps == Deps(db, t.id)
    requires !Dead(t.status) && (t.status == Pending ==> DeadDeps(db, Deps(db, t.id)) == [])
    ensures NoneStranded(db')
  {
    forall id, d | id in db'.tasks && db'.tasks[id].status == Pending && d in Deps(db', id) && d in db'.tasks
      ensures !Dead(db'.tasks[d].status)
    {
      assert id in db.tasks.Keys && d in db.tasks.Keys;
      assert Deps(db', id) == Deps(db, id);
      if d != t.id { assert d in DeadDeps(db, Deps(db, id)) <==> Dead(db.tasks[d].status); }
    }
  }

  lemma AddedKeeps(db: Db, db': Db, t: ChildTask)
    requires Added(db, db', t) && Founded(db)
    ensures Waits(db) ==> Waits(db')
    ensures NoneStranded(db) ==> NoneStranded(db')
  {
    forall id | id in db.tasks ensures id in db'.tasks && db'.tasks[id] == db.tasks[id] { assert id in db'.tasks.Keys; }
    forall id | id in db'.tasks && id != t.id ensures id in db.tasks { assert id in db'.tasks.Keys; }
    if Waits(db) {
      forall id | id in db'.tasks && db'.tasks[id].status == Pending ensures !DepsCompleted(db', Deps(db', id)) {
        assert !DepsCompleted(db, Deps(db', id));
        var d :| d in Deps(db', id) && !HasStatus(db, d, Completed);
        if id != t.id { assert Earlier(db, d, id); }
        assert !HasStatus(db', d, Completed);
      }
    }
    if NoneStranded(db) {
      forall id, d | id in db'.tasks && db'.tasks[id].status == Pending && d in Deps(db', id) && d in db'.tasks
        ensures !Dead(db'.tasks[d].status)
      {
        if id != t.id { assert Earlier(db, d, id); } else { assert d in DeadDeps(db, t.deps) <==> Dead(db.tasks[d].status); }
      }
    }
  }

  lemma SameStatusesKeep(db: Db, db': Db)
    requires db'.tasks.Keys == db.tasks.Keys
    requires forall id :: id in db.tasks ==> db'.tasks[id].status == db.tasks[id].status && Deps(db', id) == Deps(db, id)
    ensures Waits(db) ==> Waits(db')
    ensures NoneStranded(db) ==> NoneStranded(db')
  {
    forall id ensures id in db'.tasks <==> id in db.tasks { assert id in db'.tasks.Keys <==> id in db.tasks.Keys; }
    if Waits(db) {
      forall id | id in db'.tasks && db'.tasks[id].status == Pending ensures !DepsCompleted(db', Deps(db', id)) {
        var d :| d in Deps(db, id) && !HasStatus(db, d, Completed);
        assert !HasStatus(db', d, Completed);
      }
    }
  }

  // ----- Recoveries -----

  lemma {:induction false} RecoverRowsKeep(r: Redactor, db: Db, rows: seq<Id>, actor: Name, now: int)
    requires Good(r, db) && NoDuplicates(rows) && AllRunning(db, rows) && AllPresent(db, rows)
    requires RecoverRows(db, r, rows, actor, now).Ok?
    ensures var db' := RecoverRows(db, r, rows, actor, now).value.0;
      (Waits(db) ==> Waits(db')) && (NoneStranded(db) ==> NoneStranded(db'))
    decreases |rows|
  {
    hide *;
    if rows == [] {
      RecoverNothing(db, r, rows, actor, now);
    } else {
      FirstRuns(db, rows);
      RecoverRowsUnfold(db, r, rows, actor, now);
      RecoverStep(r, db, rows, actor, now);
      UnknownShape(r, db, rows[0], actor, now);
      var t := UnknownTask(db, r, rows[0], now);
      var after := EndAndSettle(db, t, actor, now).value;
      LegalEndTerminal(db, t, actor, now);
      if Waits(db) { EndKeepsWaits(db, after, t); }
      if NoneStranded(db) { EndKeepsUnstranded(db, after, t); }
      RecoverRowsKeep(r, after, rows[1..], actor, now);
    }
  }

  // ----- Cancellations -----

  /** The tasks a cancellation of `root` ends at once. */
  function EndedByCancel(db: Db, root: Id): set<Id> {
    set id | id in Live(db, Descendants(db, root)) && id in db.tasks && db.tasks[id].status != Running
  }

  /** Every PENDING dependent of a task the cancellation ends is cancelled with it. */
  ghost predicate Covered(db: Db, root: Id) {
    forall id, d :: id in db.tasks && db.tasks[id].status == Pending && d in Deps(db, id) && d in EndedByCancel(db, root) ==>
      id in Descendants(db, root)
  }

  ghost predicate CancelShape(db: Db, db': Db, root: Id) {
    var live := Live(db, Descendants(db, root));
    && OthersKept(db, db', live) && AllNowCancelled(db, db', live)
    && forall id :: id in db.tasks ==> id in db'.tasks && Deps(db', id) == Deps(db, id)
  }

  lemma CancelKeepsWaits(db: Db, db': Db, root: Id)
    requires CancelShape(db, db', root) && Waits(db)
    ensures Waits(db')
  {
    hide Descendants;
    var live := Live(db, Descendants(db, root));
    forall id | id in db'.tasks && db'.tasks[id].status == Pending ensures !DepsCompleted(db', Deps(db', id)) {
      assert id in db.tasks.Keys && (id in live ==> NowCancelled(db.tasks[id], db'.tasks[id]));
      var d :| d in Deps(db, id) && !HasStatus(db, d, Completed);
      assert !HasStatus(db', d, Completed) by {
        if d in db'.tasks { assert d in db.tasks.Keys && (d in live ==> NowCancelled(db.tasks[d], db'.tasks[d])); }
      }
    }
  }

  lemma CancelledRow(db: Db, db': Db, root: Id, id: Id)
    requires CancelShape(db, db', root) && id in db.tasks
    ensures id in db'.tasks && Deps(db', id) == Deps(db, id)
    ensures if id in EndedByCancel(db, root) then db'.tasks[id].status == Cancelled
            else db'.tasks[id].status == db.tasks[id].status
    ensures id !in Descendants(db, root) ==> id !in EndedByCancel(db, root)
    ensures id in Descendants(db, root) && db.tasks[id].status == Pending ==> id in EndedByCancel(db, root)
  {
    hide Descendants;
    var live := Live(db, Descendants(db, root));
    assert id in live ==> NowCancelled(db.tasks[id], db'.tasks[id]);
  }

  /** A cancellation strands nothing if and only if it covers the dependents of what it ends. */
  lemma CancelStrandsExactly(db: Db, db': Db, root: Id)
    requires CancelShape(db, db', root) && NoneStranded(db) && db'.tasks.Keys == db.tasks.Keys
    ensures NoneStranded(db') <==> Covered(db, root)
  {
    hide Descendants, EndedByCancel, CancelShape;
    if NoneStranded(db') {
      forall id, d | id in db.tasks && db.tasks[id].status == Pending && d in Deps(db, id) && d in EndedByCancel(db, root)
        ensures id in Descendants(db, root)
      {
        assert d in db.tasks by { assert d in EndedByCancel(db, root); EndedInTable(db, root, d); }
        CancelledRow(db, db', root, id);
        CancelledRow(db, db', root, d);
      }
    }
    if Covered(db, root) {
      forall id, d | id in db'.tasks && db'.tasks[id].status == Pending && d in Deps(db', id) && d in db'.tasks
        ensures !Dead(db'.tasks[d].status)
      {
        assert id in db.tasks.Keys && d in db.tasks.Keys;
        CancelledRow(db, db', root, id);
        CancelledRow(db, db', root, d);
        assert id in db.tasks && db.tasks[id].status == Pending && d in Deps(db, id) && d in db.tasks;
      }
    }
  }

  lemma EndedInTable(db: Db, root: Id, d: Id)
    requires d in EndedByCancel(db, root)
    ensures d in db.tasks
  {}

  // ----- Any step -----

  /** A call strands nothing, unless it is a cancellation that leaves a dependent uncovered. */
  ghost predicate Careful(r: Redactor, db: Db, c: Call) {
    c.Cancel? && RequestCancel(db, r, c.id, c.expected, c.actor, c.reason, c.now).out.Ok? ==> Covered(db, c.id)
  }

  ghost predicate Wakes(db: Db, db': Db) {
    (Waits(db) ==> Waits(db')) && (NoneStranded(db) ==> NoneStranded(db'))
  }

  lemma WakesRefl(db: Db)
    ensures Wakes(db, db)
  {}

  lemma EndWakes(db: Db, db': Db, t: ChildTask)
    requires EndShape(db, db', t) && Terminal(t.status)
    ensures Wakes(db, db')
  {
    hide EndShape, Waits, NoneStranded;
    if Waits(db) { EndKeepsWaits(db, db', t); }
    if NoneStranded(db) { EndKeepsUnstranded(db, db', t); }
  }

  lemma MoveDeps(r: Redactor, db: Db, db': Db, t: ChildTask)
    requires Safe(r, db, db') && OneMove(db, db', t)
    ensures t.deps == Deps(db, t.id)
  {
    SafeTasks(r, db, db');
    hide Safe;
    LaterDeps(db, db');
  }

  lemma MoveWakes(r: Redactor, db: Db, db': Db, t: ChildTask)
    requires Safe(r, db, db') && OneMove(db, db', t)
    requires t.status != Completed && !Dead(t.status)
    requires t.status == Pending ==>
      !DepsCompleted(db, Deps(db, t.id)) && DeadDeps(db, Deps(db, t.id)) == [] && db.tasks[t.id].status != Completed
    ensures Wakes(db, db')
  {
    MoveDeps(r, db, db', t);
    hide Safe, OneMove, Waits, NoneStranded, DepsCompleted, DeadDeps;
    if Waits(db) { MoveKeepsWaits(db, db', t); }
    if NoneStranded(db) { MoveKeepsUnstranded(db, db', t); }
  }

  lemma CreateWakes(r: Redactor, db: Db, t: ChildTask, actor: Name, key: Option<string>)
    requires Good(r, db) && Idempotent(r) && FreshTask(t)
    ensures Wakes(db, Protocol.Create(db, r, t, actor, key).db)
  {
    GoodParts(r, db);
    hide Added, FreshTask, Idempotent, Good, Protocol.Create, Waits, NoneStranded, Founded;
    CreateShape(r, db, t, actor, key);
    var c := Protocol.Create(db, r, t, actor, key);
    if c.db != db { AddedKeeps(db, c.db, c.out.value); }
  }

  lemma ExpireWakes(r: Redactor, db: Db, id: Id, expected: nat, actor: Name, now: int)
    requires Good(r, db)
    ensures Wakes(db, ExpireDeadline(db, r, id, expected, actor, now).db)
  {
    hide *;
    ExpireUnfold(db, r, id, expected, actor, now);
    var e := ExpireDeadline(db, r, id, expected, actor, now);
    if e.out == Ok(true) {
      ExpireShape(r, db, id, expected, actor, now);
      EndStatus(ExpiredTask(db, r, id, now));
      EndWakes(db, e.db, ExpiredTask(db, r, id, now));
    } else {
      WakesRefl(db);
    }
  }

  lemma EndStatus(t: ChildTask)
    ensures t.status in {BudgetExhausted, Completed, Failed, Cancelled} ==> Terminal(t.status)
    ensures t.status == BudgetExhausted ==> Terminal(t.status)
    ensures t.status in {Running, Ready, Pending, Blocked} ==> !Dead(t.status)
    ensures t.status == Running ==> !Dead(t.status)
  {}

  lemma StartWakes(r: Redactor, db: Db, id: Id, expected: nat, worker: Name, seconds: int, now: int)
    requires Good(r, db)
    ensures Wakes(db, Protocol.Start(db, r, id, expected, worker, seconds, now).db)
  {
    hide *;
    StartUnfold(db, r, id, expected, worker, seconds, now);
    var s := Protocol.Start(db, r, id, expected, worker, seconds, now);
    if s.out.Ok? {
      StartShape(r, db, id, expected, worker, seconds, now);
      StartSafe(r, db, id, expected, worker, seconds, now);
      EndStatus(StartedTask(db, r, id, now));
      MoveWakes(r, db, s.db, StartedTask(db, r, id, now));
    } else {
      WakesRefl(db);
    }
  }

  lemma HeartbeatWakes(db: Db, t: Ticket, seconds: int, now: int)
    ensures Wakes(db, Protocol.Heartbeat(db, t, seconds, now).db)
  {
    hide Waits, NoneStranded;
    SameStatusesKeep(db, Protocol.Heartbeat(db, t, seconds, now).db);
  }

  lemma FinishWakes(r: Redactor, db: Db, t: Ticket, status: Status, result: Option<TaskResult>, reason: string, actor: Name, now: int)
    requires Good(r, db)
    ensures Wakes(db, Protocol.Finish(db, r, t, status, result, reason, actor, now).db)
  {
    hide *;
    FinishUnfold(r, db, t, status, result, reason, actor, now);
    var f := Protocol.Finish(db, r, t, status, result, reason, actor, now);
    if f.out.Ok? {
      FinishShape(r, db, t, status, result, reason, actor, now);
      EndLegal(r, db, t, status, result, reason, actor, now);
      LegalEndTerminal(db, f.out.value, actor, now);
      EndWakes(db, f.db, f.out.value);
    } else {
      WakesRefl(db);
    }
  }

  lemma RetryWakes(r: Redactor, db: Db, id: Id, expected: nat, actor: Name, now: int)
    requires Good(r, db)
    ensures Wakes(db, Protocol.Retry(db, r, id, expected, actor, now).db)
  {
    hide Good, Safe, Protocol.Retry, OneMove, DepsCompleted, DeadDeps, Wakes;
    RetryUnfold(db, r, id, expected, actor, now);
    var t := Protocol.Retry(db, r, id, expected, actor, now);
    if t.out.Ok? {
      RetryShape(r, db, id, expected, actor, now);
      RetrySafe(r, db, id, expected, actor, now);
      OneMoveRow(db, t.db, t.out.value);
      MoveWakes(r, db, t.db, t.out.value);
    } else {
      WakesRefl(db);
    }
  }

  lemma RecoverWakes(r: Redactor, db: Db, actor: Name, now: int)
    requires Good(r, db)
    ensures Wakes(db, RecoverExpired(db, r, actor, now).db)
  {
    hide Good, AllRunning, AllPresent, NoDuplicates, RecoverRows, RecoverExpired, ExpiredRows, Waits, NoneStranded;
    ExpiredRowsGood(r, db, now);
    RecoverUnfold(db, r, actor, now);
    if RecoverExpired(db, r, actor, now).out.Ok? {
      RecoverRowsKeep(r, db, ExpiredRows(db, now), actor, now);
    }
  }

  lemma CancelHasShape(r: Redactor, db: Db, id: Id, expected: nat, actor: Name, reason: Name, now: int)
    requires Good(r, db) && RequestCancel(db, r, id, expected, actor, reason, now).out.Ok?
    ensures var db' := RequestCancel(db, r, id, expected, actor, reason, now).db;
      CancelShape(db, db', id) && db'.tasks.Keys == db.tasks.Keys && id in db.tasks
  {
    hide Good, Safe, RequestCancel, AllNowCancelled, Live, Descendants, LaterTasks;
    RequestCancelSafe(r, db, id, expected, actor, reason, now);
    var db' := RequestCancel(db, r, id, expected, actor, reason, now).db;
    SafeTasks(r, db, db');
    LaterDeps(db, db');
  }

  lemma CancelWakes(r: Redactor, db: Db, id: Id, expected: nat, actor: Name, reason: Name, now: int)
    requires Good(r, db)
    ensures var c := RequestCancel(db, r, id, expected, actor, reason, now);
      && (Waits(db) ==> Waits(c.db))
      && (NoneStranded(db) ==> (NoneStranded(c.db) <==> (c.out.Ok? ==> Covered(db, id))))
  {
    hide *;
    var c := RequestCancel(db, r, id, expected, actor, reason, now);
    if c.out.Ok? {
      CancelHasShape(r, db, id, expected, actor, reason, now);
      if Waits(db) { CancelKeepsWaits(db, c.db, id); }
      if NoneStranded(db) { CancelStrandsExactly(db, c.db, id); }
    } else {
      RequestCancelSafe(r, db, id, expected, actor, reason, now);
    }
  }

  /** Every step keeps the wake-up property, and a step strands a waiting task
      if and only if it is a cancellation that leaves a dependent uncovered. */
  lemma StepWakes(r: Redactor, db: Db, c: Call)
    requires Idempotent(r) && Good(r, db) && Admissible(c)
    ensures Waits(db) ==> Waits(Step(r, db, c))
    ensures NoneStranded(db) ==> (NoneStranded(Step(r, db, c)) <==> Careful(r, db, c))
  {
    hide Good, Idempotent, FreshTask, Waits, NoneStranded, Covered, Protocol.Create, ExpireDeadline, Protocol.Start, Protocol.Heartbeat;
    hide RequestCancel, Protocol.Finish, Protocol.Retry, RecoverExpired, Protocol.ClaimDelivery, Protocol.FinishDelivery;
    match c
    case Create(t, actor, key) => CreateWakes(r, db, t, actor, key);
    case Expire(id, expected, actor, now) => ExpireWakes(r, db, id, expected, actor, now);
    case Start(id, expected, worker, seconds, now) => StartWakes(r, db, id, expected, worker, seconds, now);
    case Heartbeat(t, seconds, now) => HeartbeatWakes(db, t, seconds, now);
    case Finish(t, status, result, note, actor, now) => FinishWakes(r, db, t, status, result, note, actor, now);
    case Cancel(id, expected, actor, reason, now) => CancelWakes(r, db, id, expected, actor, reason, now);
    case Retry(id, expected, actor, now) => RetryWakes(r, db, id, expected, actor, now);
    case Recover(actor, now) => RecoverWakes(r, db, actor, now);
    case ClaimDelivery(worker, seconds, now) =>
      DeliveryMoves(db, worker, seconds, DeliveryTicket(("", 0), 0), false, None, now); SameStatusesKeep(db, Step(r, db, c));
    case FinishDelivery(t, delivered, error, now) =>
      DeliveryMoves(db, "w", 1, t, delivered, error, now); SameStatusesKeep(db, Step(r, db, c));
  }

  // ----- Runs -----

  /** Every cancellation of the run covers the dependents of what it ends. */
  ghost predicate AllCareful(r: Redactor, db: Db, calls: seq<Call>)
    decreases |calls|
  {
    calls != [] ==>
      && AllCareful(r, db, calls[..|calls| - 1])
      && Careful(r, Run(r, db, calls[..|calls| - 1]), Last(calls))
  }

  /** No run loses a wake-up, and a run of covering cancellations strands nothing. */
  lemma {:induction false} RunWakes(r: Redactor, calls: seq<Call>)
    requires Idempotent(r) && AllAdmissible(calls)
    ensures Waits(Run(r, EmptyDb, calls))
    ensures AllCareful(r, EmptyDb, calls) ==> NoneStranded(Run(r, EmptyDb, calls))
    decreases |calls|
  {
    if calls != [] {
      var n := |calls| - 1;
      assert AllAdmissible(calls[..n]);
      assert Admissible(calls[n]);
      hide Idempotent, Admissible, Step, Waits, NoneStranded, Careful;
      RunWakes(r, calls[..n]);
      assert Good(r, EmptyDb) by { EmptyInv(); }
      hide Good;
      RunSafe(r, EmptyDb, calls[..n]);
      SafeGood(r, EmptyDb, Run(r, EmptyDb, calls[..n]));
      StepWakes(r, Run(r, EmptyDb, calls[..n]), Last(calls));
    }
  }

  // ----- Where waiting leads -----

  /** `q` goes from dependent to dependency, through PENDING tasks, to one that is not. */
  ghost predicate WaitChain(db: Db, q: seq<Id>)
    decreases |q|
  {
    && q != [] && q[0] in db.tasks
    && (if |q| == 1 then db.tasks[q[0]].status in {Ready, Running, Blocked}
        else db.tasks[q[0]].status == Pending && q[1] in Deps(db, q[0]) && WaitChain(db, q[1..]))
  }

  /** Every PENDING task waits, through a chain of dependencies, for a task that
      a worker can claim, a worker holds, or an operator must retry. */
  lemma {:induction false} PendingLeadsOn(r: Redactor, db: Db, id: Id)
    requires Good(r, db) && Waits(db) && NoneStranded(db)
    requires id in db.tasks && db.tasks[id].status in {Pending, Ready, Running, Blocked}
    ensures exists q :: WaitChain(db, q) && q[0] == id
    decreases db.tasks[id].rowid
  {
    hide Good, Waits, NoneStranded;
    if db.tasks[id].status == Pending {
      var d := SomethingToWaitFor(r, db, id);
      PendingLeadsOn(r, db, d);
      var rest :| WaitChain(db, rest) && rest[0] == d;
      assert ([id] + rest)[1..] == rest;
      assert WaitChain(db, [id] + rest);
    } else {
      assert WaitChain(db, [id]);
    }
  }

  lemma SomethingToWaitFor(r: Redactor, db: Db, id: Id) returns (d: Id)
    requires Good(r, db) && Waits(db) && NoneStranded(db) && id in db.tasks && db.tasks[id].status == Pending
    ensures d in Deps(db, id) && d in db.tasks && db.tasks[d].rowid < db.tasks[id].rowid
    ensures db.tasks[d].status in {Pending, Ready, Running, Blocked}
  {
    hide Good, RowAgrees, RowsAgree, DependencyOrder, AttemptsAgree, HistoryDense, OutboxAgrees, ParallelismBounded, Redacted;
    GoodParts(r, db);
    d :| d in Deps(db, id) && !HasStatus(db, d, Completed);
    EarlierDep(db, id, d);
    hide Founded, Waits;
    RowFacts(r, db, d);
    assert !Dead(db.tasks[d].status);
    hide NoneStranded;
  }

  lemma EarlierDep(db: Db, id: Id, d: Id)
    requires Founded(db) && id in db.tasks && d in Deps(db, id)
    ensures Earlier(db, d, id)
  {}

  lemma CancelledStays(db: Db, db': Db, d: Id)
    requires LaterTasks(db, db') && HasStatus(db, d, Cancelled)
    ensures HasStatus(db', d, Cancelled)
  {
    assert LaterRow(db.tasks[d], db'.tasks[d]);
  }

  lemma StartedNeedsDeps(db: Db, id: Id, d: Id)
    requires DependencyOrder(db) && id in db.tasks && d in Deps(db, id) && HasStatus(db, d, Cancelled)
    ensures !Started(db.tasks[id])
  {
    assert !DepsCompleted(db, Deps(db, id));
  }

  lemma NeverStarts(r: Redactor, db: Db, id: Id, d: Id)
    requires Good(r, db) && id in db.tasks && d in Deps(db, id) && HasStatus(db, d, Cancelled)
    ensures !Started(db.tasks[id]) && db.tasks[id].status in {Pending, Blocked, Cancelled}
  {
    hide Good, RowAgrees, RowsAgree, Founded, DependencyOrder, AttemptsAgree, HistoryDense, OutboxAgrees, ParallelismBounded, Redacted;
    GoodParts(r, db);
    StartedNeedsDeps(db, id, d);
    RowFacts(r, db, id);
  }

  /** A task with a cancelled dependency never starts in any continuation. */
  lemma StrandedForGood(r: Redactor, db: Db, db': Db, id: Id, d: Id)
    requires Idempotent(r) && Good(r, db) && LeadsTo(r, db, db')
    requires id in db.tasks && d in Deps(db, id) && HasStatus(db, d, Cancelled)
    ensures id in db'.tasks && HasStatus(db', d, Cancelled)
    ensures !Started(db'.tasks[id]) && db'.tasks[id].status in {Pending, Blocked, Cancelled}
  {
    LeadsToSafe(r, db, db');
    assert LaterTasks(db, db');
    hide Good, Later, LaterTasks, LeadsTo, Idempotent;
    LaterDeps(db, db');
    CancelledStays(db, db', d);
    NeverStarts(r, db', id, d);
  }
}

/** The completion outbox: what it owes, and what a delivery can still change. */
module Outbox {
  import opened Basics
  import opened Redaction
  import opened ChildModels
  import opened Tables
  import opened Protocol
  import opened Invariants
  import opened Growth
  import opened Steps
  import opened Transactions
  import opened Runs
  import opened Footprints
  import opened Guarantees

  /** The outbox rows of a task. */
  function Owed(db: Db, id: Id): set<TaskKey> {
    set k | k in db.outbox && k.0 == id
  }

  /** The step took the task into a terminal status. */
  predicate Enters(db: Db, db': Db, id: Id) {
    && id in db'.tasks && Terminal(db'.tasks[id].status)
    && (id in db.tasks ==> db'.tasks[id].revision != db.tasks[id].revision)
  }

  /** How many steps of a run took the task into a terminal status. */
  function Entries(r: Redactor, calls: seq<Call>, id: Id): nat
    decreases |calls|
  {
    if calls == [] then 0
    else
      var n := |calls| - 1;
      Entries(r, calls[..n], id)
      + (if Enters(Run(r, EmptyDb, calls[..n]), Run(r, EmptyDb, calls), id) then 1 else 0)
  }

  // ----- One step -----

  lemma OwedOnlyEnded(db: Db, id: Id, k: nat)
    requires HistoryDense(db) && OutboxAgrees(db)
    ensures (id, k) in db.outbox <==> (id, k) in db.events && db.events[(id, k)].kind.Ended?
    ensures (id, k) in db.events <==> id in db.tasks && k <= db.tasks[id].revision
    ensures id in db.tasks && k == db.tasks[id].revision ==> ((id, k) in db.outbox <==> Terminal(db.tasks[id].status))
  {}

  lemma OwedKey(db: Db, db': Db, id: Id, k: nat)
    requires HistoryDense(db) && OutboxAgrees(db) && HistoryDense(db') && OutboxAgrees(db')
    requires LaterTasks(db, db')
    requires id in db'.tasks ==> db'.tasks[id].revision <= (if id in db.tasks then db.tasks[id].revision + 1 else 0)
    ensures (id, k) in db'.outbox <==>
      (id, k) in db.outbox || (Enters(db, db', id) && k == db'.tasks[id].revision)
    ensures Enters(db, db', id) ==> (id, db'.tasks[id].revision) !in db.outbox
  {
    OwedOnlyEnded(db, id, k);
    OwedOnlyEnded(db', id, k);
    if id in db.tasks {
      assert LaterRow(db.tasks[id], db'.tasks[id]);
      OwedOnlyEnded(db, id, db'.tasks[id].revision);
    }
    hide HistoryDense, OutboxAgrees;
  }

  lemma RevisionsStep(db: Db, db': Db, retried: Option<Id>, id: Id)
    requires Moves(db, db', retried)
    ensures id in db'.tasks ==> db'.tasks[id].revision <= (if id in db.tasks then db.tasks[id].revision + 1 else 0)
  {
    if id in db'.tasks && id !in db.tasks { NewbornRevision(db, db', retried, id); }
  }

  lemma NewbornRevision(db: Db, db': Db, retried: Option<Id>, id: Id)
    requires Moves(db, db', retried) && id in db'.tasks && id !in db.tasks
    ensures db'.tasks[id].revision == 0
  {}

  /** The step adds a row for `id` if it ended it, and no other. */
  ghost predicate OwesEntries(db: Db, db': Db, id: Id) {
    && (forall k: nat :: (id, k) in db'.outbox <==>
          (id, k) in db.outbox || (Enters(db, db', id) && k == db'.tasks[id].revision))
    && (Enters(db, db', id) ==> (id, db'.tasks[id].revision) !in db.outbox)
  }

  lemma OwedKeys(db: Db, db': Db, id: Id)
    requires HistoryDense(db) && OutboxAgrees(db) && HistoryDense(db') && OutboxAgrees(db')
    requires LaterTasks(db, db')
    requires id in db'.tasks ==> db'.tasks[id].revision <= (if id in db.tasks then db.tasks[id].revision + 1 else 0)
    ensures OwesEntries(db, db', id)
  {
    hide HistoryDense, OutboxAgrees, LaterTasks;
    OwedKey(db, db', id, 0);
    forall k: nat
      ensures (id, k) in db'.outbox <==> (id, k) in db.outbox || (Enters(db, db', id) && k == db'.tasks[id].revision)
    {
      OwedKey(db, db', id, k);
    }
  }

  lemma OwedAfter(db: Db, db': Db, id: Id)
    requires OwesEntries(db, db', id)
    ensures |Owed(db', id)| == |Owed(db, id)| + (if Enters(db, db', id) then 1 else 0)
  {
    var before, after := Owed(db, id), Owed(db', id);
    if Enters(db, db', id) {
      var key := (id, db'.tasks[id].revision);
      assert key in db'.outbox;
      forall k ensures k in after <==> k in before + {key} { assert k.0 == id ==> k == (id, k.1); }
      assert after == before + {key};
    } else {
      forall k ensures k in after <==> k in before { assert k.0 == id ==> k == (id, k.1); }
      assert after == before;
    }
  }

  /** A step adds one row for each task it takes into a terminal status, and no other. */
  lemma StepOwes(r: Redactor, db: Db, c: Call, id: Id)
    requires Idempotent(r) && Good(r, db) && Admissible(c)
    ensures |Owed(Step(r, db, c), id)| == |Owed(db, id)| + (if Enters(db, Step(r, db, c), id) then 1 else 0)
  {
    hide *;
    var db' := Step(r, db, c);
    StepSafe(r, db, c);
    SafeGood(r, db, db');
    SafeTasks(r, db, db');
    StepMoves(r, db, c);
    GoodParts(r, db);
    GoodParts(r, db');
    RevisionsStep(db, db', RetriedBy(c), id);
    OwedKeys(db, db', id);
    OwedAfter(db, db', id);
  }

  // ----- Runs -----

  lemma NothingOwed(r: Redactor, calls: seq<Call>, id: Id)
    requires calls == []
    ensures |Owed(Run(r, EmptyDb, calls), id)| == Entries(r, calls, id)
  {
    assert Owed(EmptyDb, id) == {};
  }

  lemma EntriesUnfold(r: Redactor, calls: seq<Call>, id: Id)
    requires calls != []
    ensures var n := |calls| - 1;
      Entries(r, calls, id) ==
        Entries(r, calls[..n], id) + (if Enters(Run(r, EmptyDb, calls[..n]), Run(r, EmptyDb, calls), id) then 1 else 0)
  {
    hide Run, Enters;
  }

  lemma LastCall(r: Redactor, calls: seq<Call>)
    requires calls != [] && AllAdmissible(calls)
    ensures Admissible(calls[|calls| - 1])
    ensures Run(r, EmptyDb, calls) == Step(r, Run(r, EmptyDb, calls[..|calls| - 1]), calls[|calls| - 1])
  {
    hide Step, Admissible;
  }

  /** Conservation: a task has as many outbox rows as it had terminal entries. */
  lemma {:induction false} OutboxConservation(r: Redactor, calls: seq<Call>, id: Id)
    requires Idempotent(r) && AllAdmissible(calls)
    ensures |Owed(Run(r, EmptyDb, calls), id)| == Entries(r, calls, id)
    decreases |calls|
  {
    hide *;
    if calls == [] {
      NothingOwed(r, calls, id);
    } else {
      var n := |calls| - 1;
      RunPrefix(r, calls, n);
      LastCall(r, calls);
      OutboxConservation(r, calls[..n], id);
      StepOwes(r, Run(r, EmptyDb, calls[..n]), calls[n], id);
      EntriesUnfold(r, calls, id);
    }
  }

  /** A task has a row at its current revision exactly while it is terminal, and none beyond. */
  lemma TerminalOwesCurrent(r: Redactor, db: Db, id: Id, k: nat)
    requires Good(r, db) && id in db.tasks
    ensures (id, db.tasks[id].revision) in db.outbox <==> Terminal(db.tasks[id].status)
    ensures k > db.tasks[id].revision ==> (id, k) !in db.outbox
  {
    hide *;
    GoodParts(r, db);
    OwedOnlyEnded(db, id, db.tasks[id].revision);
    OwedOnlyEnded(db, id, k);
  }

  // ----- Deliveries -----

  lemma DeliveredStays(db: Db, db': Db, k: TaskKey)
    requires LaterOutbox(db, db') && k in db.outbox && db.outbox[k].status == DeliveryDelivered
    ensures k in db'.outbox && db'.outbox[k] == db.outbox[k]
  {
    assert LaterDelivery(db.outbox[k], db'.outbox[k], db.uuids);
  }

  /** A delivery token that its row no longer carries never changes the row again. */
  lemma StaleDelivery(db: Db, db': Db, t: DeliveryTicket, delivered: bool, error: Option<string>, now: int)
    requires LaterOutbox(db, db') && t.token < db.uuids && t.key in db.outbox && db.outbox[t.key].token != Some(t.token)
    ensures t.key in db'.outbox && db'.outbox[t.key].token != Some(t.token)
    ensures Protocol.FinishDelivery(db', t, delivered, error, now) == Txn(db', Err(DeliveryConflict))
  {
    assert LaterDelivery(db.outbox[t.key], db'.outbox[t.key], db.uuids);
  }

  /** Exactly when a delivery is acknowledged, and all it then changes: the ticket is used up,
      and the row says whether the consumer took it, when, or why not. */
  lemma FinishDeliveryExactly(r: Redactor, db: Db, t: DeliveryTicket, delivered: bool, error: Option<string>, now: int)
    requires Good(r, db)
    ensures var f := Protocol.FinishDelivery(db, t, delivered, error, now);
      && (f.out.Ok? <==> t.key in db.outbox && db.outbox[t.key].token == Some(t.token) && db.outbox[t.key].lease.value >= now)
      && (f.out.Err? ==> f.db == db)
      && (f.out.Ok? ==>
            var was, d := db.outbox[t.key], f.out.value;
            && f.db == db.(outbox := db.outbox[t.key := d])
            && d.status == (if delivered then DeliveryDelivered else DeliveryFailed)
            && d.token == None && d.worker == None && d.lease == None && d.error == error
            && d.attempts == was.attempts && d.createdAt == was.createdAt && d.updatedAt == now
            && d.deliveredAt == (if delivered then Some(now) else None))
  {
    if t.key in db.outbox { RowClaimed(r, db, t.key); }
    hide Good;
  }

  lemma RowClaimed(r: Redactor, db: Db, k: TaskKey)
    requires Good(r, db) && k in db.outbox
    ensures DeliveryAgrees(db.outbox[k])
  {
    GoodParts(r, db);
    hide Good, RowsAgree, Founded, DependencyOrder, AttemptsAgree, HistoryDense, ParallelismBounded, Redacted;
  }

  /** A claimed delivery was the oldest of those that could be claimed, and had been waiting. */
  lemma {:induction false} OldestDueIsOldest(db: Db, n: nat)
    requires n <= |db.sent|
    ensures var best := OldestDue(db, n);
      forall i :: 0 <= i < n && db.sent[i] in db.outbox && Due(db.outbox[db.sent[i]]) ==>
        best.Some? && db.outbox[best.value].createdAt <= db.outbox[db.sent[i]].createdAt
  {
    if n > 0 { OldestDueIsOldest(db, n - 1); }
  }

  predicate Due(d: DeliveryRow) {
    d.status in {DeliveryPending, DeliveryFailed, DeliveryUnknown}
  }

  lemma NotDueOrHeld(r: Redactor, db: Db, k: TaskKey, now: int)
    requires Good(r, db) && k in db.outbox && OldestDue(LapseDeliveries(db, now), |db.sent|).None?
    ensures || db.outbox[k].status == DeliveryDelivered
            || (db.outbox[k].status == DeliveryClaimed && db.outbox[k].lease.Some? && db.outbox[k].lease.value >= now)
  {
    var lapsed := LapseDeliveries(db, now);
    hide Good, OldestDue;
    SentHolds(r, db, k);
    var i :| 0 <= i < |db.sent| && db.sent[i] == k;
    OldestDueIsOldest(lapsed, |lapsed.sent|);
    assert lapsed.sent[i] == k && !Due(lapsed.outbox[k]);
  }

  lemma ClaimedNothing(db: Db, worker: Name, seconds: int, now: int)
    requires seconds >= 1 && Protocol.ClaimDelivery(db, worker, seconds, now).out == Ok(None)
    ensures OldestDue(LapseDeliveries(db, now), |db.sent|).None?
  {
    hide OldestDue;
  }

  /** Nothing that can be delivered is passed over: a claim answers with nothing only
      when every row is delivered or is held under a lease that still runs. */
  lemma ClaimDeliveryFindsDue(r: Redactor, db: Db, worker: Name, seconds: int, now: int)
    requires Good(r, db) && seconds >= 1
    requires Protocol.ClaimDelivery(db, worker, seconds, now).out == Ok(None)
    ensures forall k :: k in db.outbox ==>
      || db.outbox[k].status == DeliveryDelivered
      || (db.outbox[k].status == DeliveryClaimed && db.outbox[k].lease.Some? && db.outbox[k].lease.value >= now)
  {
    hide *;
    ClaimedNothing(db, worker, seconds, now);
    forall k | k in db.outbox
      ensures db.outbox[k].status == DeliveryDelivered ||
              (db.outbox[k].status == DeliveryClaimed && db.outbox[k].lease.Some? && db.outbox[k].lease.value >= now)
    {
      NotDueOrHeld(r, db, k, now);
    }
  }

  lemma SentHolds(r: Redactor, db: Db, k: TaskKey)
    requires Good(r, db) && k in db.outbox
    ensures k in db.sent && DeliveryAgrees(db.outbox[k])
  {
    GoodParts(r, db);
    hide Good, RowsAgree, Founded, DependencyOrder, AttemptsAgree, HistoryDense, ParallelismBounded, Redacted;
  }

  /** A claim of a delivery hands one due row, and no other, to the worker under a new token
      and a new lease; rows whose lease ran out become UNKNOWN, so claimable again, and the rest keep. */
  lemma ClaimDeliveryMoves(r: Redactor, db: Db, worker: Name, seconds: int, now: int, t: DeliveryTicket, k: TaskKey)
    requires Good(r, db) && seconds >= 1 && k in db.outbox
    requires Protocol.ClaimDelivery(db, worker, seconds, now).out == Ok(Some(t))
    ensures var db' := Protocol.ClaimDelivery(db, worker, seconds, now).db;
      && t.key in db.outbox && k in db'.outbox && t.token == db.uuids && db'.uuids == db.uuids + 1
      && (Due(db.outbox[t.key]) || Lapsed(db.outbox[t.key], now))
      && (k == t.key ==>
            && db'.outbox[k].status == DeliveryClaimed && db'.outbox[k].token == Some(t.token) && db'.outbox[k].worker == Some(worker)
            && db'.outbox[k].lease == Some(now + seconds * 1_000_000) && db'.outbox[k].attempts == db.outbox[k].attempts + 1
            && db'.outbox[k].error == None && db'.outbox[k].createdAt == db.outbox[k].createdAt && db'.outbox[k].updatedAt == now)
      && (k != t.key ==>
            if Lapsed(db.outbox[k], now)
            then db'.outbox[k] == db.outbox[k].(status := DeliveryUnknown, token := None, worker := None, lease := None,
                                                error := Some("delivery lease expired"), updatedAt := now)
            else db'.outbox[k] == db.outbox[k])
  {
    hide OldestDue, Good;
  }

  lemma ClaimedIsOldest(db: Db, worker: Name, seconds: int, now: int, t: DeliveryTicket)
    requires seconds >= 1 && Protocol.ClaimDelivery(db, worker, seconds, now).out == Ok(Some(t))
    ensures OldestDue(LapseDeliveries(db, now), |db.sent|) == Some(t.key)
  {
    hide OldestDue, LapsedDelivery;
  }

  /** The delivery handed out is as old as any that could have been. */
  lemma ClaimDeliveryOldest(r: Redactor, db: Db, worker: Name, seconds: int, now: int, t: DeliveryTicket, k: TaskKey)
    requires Good(r, db) && seconds >= 1 && Protocol.ClaimDelivery(db, worker, seconds, now).out == Ok(Some(t))
    requires k in db.outbox && (Due(db.outbox[k]) || Lapsed(db.outbox[k], now))
    ensures t.key in db.outbox && db.outbox[t.key].createdAt <= db.outbox[k].createdAt
  {
    hide *;
    ClaimedIsOldest(db, worker, seconds, now, t);
    SentHolds(r, db, k);
    var i :| 0 <= i < |db.sent| && db.sent[i] == k;
    var lapsed := LapseDeliveries(db, now);
    LapsedRow(db, k, now);
    LapsedRow(db, t.key, now);
    OldestDueIsOldest(lapsed, |db.sent|);
    assert lapsed.sent[i] == k;
  }

  lemma LapsedRow(db: Db, k: TaskKey, now: int)
    ensures var lapsed := LapseDeliveries(db, now);
      && lapsed.sent == db.sent && (k in lapsed.outbox <==> k in db.outbox)
      && (k in db.outbox ==>
            && lapsed.outbox[k].createdAt == db.outbox[k].createdAt
            && (Due(lapsed.outbox[k]) <==> Due(db.outbox[k]) || Lapsed(db.outbox[k], now)))
  {}

  predicate Lapsed(d: DeliveryRow, now: int) {
    d.status == DeliveryClaimed && d.lease.Some? && d.lease.value < now
  }
}

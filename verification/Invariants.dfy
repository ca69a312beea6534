/** What every row write keeps. */
module Invariants {
  import opened Basics
  import opened ChildModels
  import opened Tables

  /** Columns agree with the stored snapshot, and a row is claimed exactly while it runs. */
  ghost predicate RowAgrees(id: Id, row: TaskRow) {
    && row.snapshot.id == id
    && row.snapshot.status == row.status
    && row.snapshot.revision == row.revision
    && row.snapshot.cancelRequested == row.cancelRequested
    && row.snapshot.completedAt == row.completedAt
    && (row.claim.Some? <==> row.status == Running)
    && (Terminal(row.status) <==> row.completedAt.Some?)
    && (row.status == Completed ==> row.snapshot.result.Some?)
    && (row.status in {Running, Completed, Failed, Unknown} ==> row.snapshot.attemptCount > 0)
    && NoDuplicates(row.snapshot.deps)
  }

  /** WAITING is never entered, and a cancellation request outlives only three statuses. */
  predicate FlagAgrees(row: TaskRow) {
    && row.status != Waiting
    && (row.cancelRequested ==> row.status in {Running, Cancelled, Unknown})
    && (row.status == Cancelled ==> row.cancelRequested)
  }

  ghost predicate RowsAgree(db: Db) {
    && NoDuplicates(db.ids)
    && (forall id :: id in db.ids <==> id in db.tasks)
    && (forall id :: id in db.tasks ==> RowAgrees(id, db.tasks[id]) && FlagAgrees(db.tasks[id]))
    && (forall id :: id in db.tasks ==> db.tasks[id].rowid < |db.ids| && db.ids[db.tasks[id].rowid] == id)
    && (forall k :: k in db.creationKeys ==> db.creationKeys[k] in db.tasks)
  }

  /** `d` was inserted before `id`. */
  predicate Earlier(db: Db, d: Id, id: Id) {
    d in db.tasks && id in db.tasks && db.tasks[d].rowid < db.tasks[id].rowid
  }

  /** Dependencies and parents were inserted before the tasks that name them. */
  ghost predicate Founded(db: Db) {
    && (forall id, d :: id in db.tasks && d in Deps(db, id) ==> Earlier(db, d, id))
    && (forall id :: id in db.tasks && Parent(db, id).Some? ==> Earlier(db, Parent(db, id).value, id))
  }

  /** The task got past its dependencies at some point. */
  predicate Started(row: TaskRow) {
    row.status in {Ready, Running, Completed, Failed, BudgetExhausted, Unknown} || row.snapshot.attemptCount > 0
  }

  ghost predicate DependencyOrder(db: Db) {
    forall id :: id in db.tasks && Started(db.tasks[id]) ==> DepsCompleted(db, Deps(db, id))
  }

  /** The running attempt of a task: same identifiers and lease as its claim columns. */
  predicate AttemptMatches(a: AttemptRow, c: Claim) {
    a.status == Running && a.id == c.attemptId && a.token == c.token && a.worker == c.worker && a.lease == c.lease
  }

  /** Attempts are numbered 1 to the attempt count; one runs exactly when its task runs. */
  ghost predicate AttemptsAgree(db: Db) {
    && (forall id: Id, n: nat :: (id, n) in db.attempts <==>
          id in db.tasks && 1 <= n <= db.tasks[id].snapshot.attemptCount)
    && (forall id :: id in db.tasks && db.tasks[id].claim.Some? ==>
          var key := (id, db.tasks[id].snapshot.attemptCount);
          key in db.attempts && AttemptMatches(db.attempts[key], db.tasks[id].claim.value))
    && (forall id: Id, n: nat :: (id, n) in db.attempts ==>
          (db.attempts[(id, n)].status == Running <==>
             db.tasks[id].status == Running && n == db.tasks[id].snapshot.attemptCount))
    && (forall k :: k in db.attempts ==>
          (db.attempts[k].status == Running || Terminal(db.attempts[k].status)) && db.attempts[k].token < db.uuids)
    && (forall k, k' :: k in db.attempts && k' in db.attempts && k != k' ==>
          db.attempts[k].token != db.attempts[k'].token)
  }

  /** One event for each revision up to the current one, and none beyond. */
  ghost predicate HistoryDense(db: Db) {
    forall id: Id, k: nat :: (id, k) in db.events <==> id in db.tasks && k <= db.tasks[id].revision
  }

  predicate DeliveryAgrees(d: DeliveryRow) {
    && (d.token.Some? <==> d.status == DeliveryClaimed)
    && (d.worker.Some? <==> d.status == DeliveryClaimed)
    && (d.lease.Some? <==> d.status == DeliveryClaimed)
  }

  /** A delivery for each terminal event and for nothing else; the last event of a
      task is terminal exactly when the task is. */
  ghost predicate OutboxAgrees(db: Db) {
    && (forall id: Id, k: nat :: (id, k) in db.outbox <==> (id, k) in db.events && db.events[(id, k)].kind.Ended?)
    && (forall id: Id, k: nat :: id in db.tasks && k == db.tasks[id].revision && (id, k) in db.events ==>
          if Terminal(db.tasks[id].status) then db.events[(id, k)].kind == Ended(db.tasks[id].status)
          else !db.events[(id, k)].kind.Ended?)
    && NoDuplicates(db.sent)
    && (forall k :: k in db.sent <==> k in db.outbox)
    && (forall k :: k in db.outbox ==> DeliveryAgrees(db.outbox[k]))
    && (forall k :: k in db.outbox && db.outbox[k].token.Some? ==> db.outbox[k].token.value < db.uuids)
  }

  /** No parent has more active children than it allows. */
  ghost predicate ParallelismBounded(db: Db) {
    forall p :: p in db.tasks ==> |ActiveChildren(db, p)| <= db.tasks[p].snapshot.spec.maxParallelism
  }

  ghost predicate Inv(db: Db) {
    && RowsAgree(db) && Founded(db) && DependencyOrder(db) && AttemptsAgree(db)
    && HistoryDense(db) && OutboxAgrees(db) && ParallelismBounded(db)
  }

  // ----- A legal row transition keeps each of them -----

  /** `db'` differs from `db` at most in the row of `id` and in tables that do not hold tasks. */
  ghost predicate OneRowChanged(db: Db, db': Db, id: Id) {
    && id in db.tasks && db'.ids == db.ids && db'.creationKeys == db.creationKeys
    && db'.tasks.Keys == db.tasks.Keys
    && (forall i :: i in db.tasks && i != id ==> db'.tasks[i] == db.tasks[i])
    && db'.tasks[id].rowid == db.tasks[id].rowid
    && CreationPayload(db'.tasks[id].snapshot) == CreationPayload(db.tasks[id].snapshot)
  }

  lemma RowsKept(db: Db, db': Db, id: Id)
    requires RowsAgree(db) && OneRowChanged(db, db', id)
    requires RowAgrees(id, db'.tasks[id]) && FlagAgrees(db'.tasks[id])
    ensures RowsAgree(db')
  {
    forall i ensures i in db'.ids <==> i in db'.tasks {
      assert i in db'.tasks <==> i in db'.tasks.Keys;
    }
  }

  lemma FoundedKept(db: Db, db': Db, id: Id)
    requires Founded(db) && OneRowChanged(db, db', id)
    ensures Founded(db')
  {
    forall i, d | i in db'.tasks && d in Deps(db', i) ensures Earlier(db', d, i) {
      assert d in Deps(db, i) && Earlier(db, d, i);
    }
    forall i | i in db'.tasks && Parent(db', i).Some? ensures Earlier(db', Parent(db', i).value, i) {
      assert Earlier(db, Parent(db, i).value, i);
    }
  }

  /** COMPLETED never changes, and a task that got past its dependencies found them completed. */
  lemma OrderKept(db: Db, db': Db, id: Id)
    requires DependencyOrder(db) && OneRowChanged(db, db', id)
    requires db.tasks[id].status == Completed ==> db'.tasks[id].status == Completed
    requires Started(db'.tasks[id]) ==> DepsCompleted(db, Deps(db, id))
    ensures DependencyOrder(db')
  {
    forall i | i in db'.tasks && Started(db'.tasks[i]) ensures DepsCompleted(db', Deps(db', i)) {
      assert DepsCompleted(db, Deps(db, i));
      forall d | d in Deps(db', i) ensures HasStatus(db', d, Completed) {
        assert HasStatus(db, d, Completed);
      }
    }
  }

  /** Only a start can raise a parent's active count, and it finds room. */
  lemma ParallelismKept(db: Db, db': Db, id: Id)
    requires ParallelismBounded(db) && OneRowChanged(db, db', id)
    requires FlagAgrees(db.tasks[id]) && FlagAgrees(db'.tasks[id])
    requires
      db'.tasks[id].status == Running && db.tasks[id].status != Running &&
      Parent(db, id).Some? && Parent(db, id).value in db.tasks ==>
        |ActiveChildren(db, Parent(db, id).value)| < db.tasks[Parent(db, id).value].snapshot.spec.maxParallelism
    ensures ParallelismBounded(db')
  {
    forall p | p in db'.tasks ensures |ActiveChildren(db', p)| <= db'.tasks[p].snapshot.spec.maxParallelism {
      assert |ActiveChildren(db, p)| <= db.tasks[p].snapshot.spec.maxParallelism;
      ActiveChildrenKept(db, db', id, p);
      assert db'.tasks[p].snapshot.spec == db.tasks[p].snapshot.spec;
    }
  }

  lemma ActiveChildrenKept(db: Db, db': Db, id: Id, p: Id)
    requires OneRowChanged(db, db', id) && FlagAgrees(db.tasks[id]) && FlagAgrees(db'.tasks[id])
    ensures var starts := db'.tasks[id].status == Running && db.tasks[id].status != Running;
      |ActiveChildren(db', p)| <= |ActiveChildren(db, p)| + (if Parent(db, id) == Some(p) && starts then 1 else 0)
  {
    var before, after := ActiveChildren(db, p), ActiveChildren(db', p);
    forall c | c in after && c != id ensures c in before { assert c in db.tasks; }
    if Parent(db, id) == Some(p) && db'.tasks[id].status == Running && db.tasks[id].status != Running {
      CardinalityOfSubset(after, before + {id});
    } else {
      CardinalityOfSubset(after, before);
    }
  }

  lemma AttemptOpened(db: Db, t: ChildTask, claim: Claim, event: EventRow)
    requires AttemptsAgree(db) && t.id in db.tasks && t.status == Running
    requires var row := db.tasks[t.id];
      row.status != Running && t.attemptCount == row.snapshot.attemptCount + 1
    requires claim.token == db.uuids + 1
    ensures AttemptsAgree(Advance(db, t, Some(claim), event))
  {}

  lemma AttemptClosed(db: Db, t: ChildTask, event: EventRow)
    requires AttemptsAgree(db) && t.id in db.tasks && Terminal(t.status)
    requires var row := db.tasks[t.id];
      row.status == Running && row.claim.Some? && t.attemptCount == row.snapshot.attemptCount
    ensures AttemptsAgree(Advance(db, t, None, event))
  {
    assert (t.id, t.attemptCount) in db.attempts;
  }

  lemma AttemptsUntouched(db: Db, t: ChildTask, claim: Option<Claim>, event: EventRow)
    requires AttemptsAgree(db) && t.id in db.tasks
    requires var row := db.tasks[t.id];
      && (row.status == Running <==> t.status == Running)
      && t.attemptCount == row.snapshot.attemptCount && claim == row.claim
    ensures AttemptsAgree(Advance(db, t, claim, event))
  {}

  lemma HistoryKept(db: Db, t: ChildTask, claim: Option<Claim>, event: EventRow)
    requires HistoryDense(db) && t.id in db.tasks && t.revision == db.tasks[t.id].revision + 1
    ensures HistoryDense(Advance(db, t, claim, event))
  {}

  lemma OutboxKept(db: Db, t: ChildTask, claim: Option<Claim>, event: EventRow)
    requires OutboxAgrees(db) && HistoryDense(db) && t.id in db.tasks && t.revision == db.tasks[t.id].revision + 1
    requires if Terminal(t.status) then event.kind == Ended(t.status) else !event.kind.Ended?
    ensures OutboxAgrees(Advance(db, t, claim, event))
  {
    assert (t.id, t.revision) !in db.events;
    assert (t.id, t.revision) !in db.outbox;
  }

  lemma LegalRow(db: Db, t: ChildTask, claim: Option<Claim>, event: EventRow)
    requires Legal(db, t, claim, event)
    requires RowAgrees(t.id, db.tasks[t.id]) && FlagAgrees(db.tasks[t.id])
    ensures var db' := Advance(db, t, claim, event);
      && OneRowChanged(db, db', t.id)
      && RowAgrees(t.id, db'.tasks[t.id]) && FlagAgrees(db'.tasks[t.id])
      && (db.tasks[t.id].status == Completed ==> db'.tasks[t.id].status == Completed)
  {}

  lemma LegalStart(db: Db, t: ChildTask, claim: Option<Claim>, event: EventRow)
    requires Legal(db, t, claim, event) && DependencyOrder(db)
    requires RowAgrees(t.id, db.tasks[t.id])
    ensures Started(Advance(db, t, claim, event).tasks[t.id]) ==> DepsCompleted(db, Deps(db, t.id))
  {
    assert Started(db.tasks[t.id]) ==> DepsCompleted(db, Deps(db, t.id));
  }

  lemma AttemptsKept(db: Db, t: ChildTask, claim: Option<Claim>, event: EventRow)
    requires Legal(db, t, claim, event) && AttemptsAgree(db)
    requires RowAgrees(t.id, db.tasks[t.id])
    ensures AttemptsAgree(Advance(db, t, claim, event))
  {
    hide AttemptsAgree;
    var row := db.tasks[t.id];
    if row.status != Running && t.status == Running {
      AttemptOpened(db, t, claim.value, event);
    } else if row.status == Running && t.status != Running {
      AttemptClosed(db, t, event);
    } else {
      AttemptsUntouched(db, t, claim, event);
    }
  }

  /** Every legal row transition keeps every invariant. */
  lemma AdvanceKeepsInv(db: Db, t: ChildTask, claim: Option<Claim>, event: EventRow)
    requires Inv(db) && Legal(db, t, claim, event)
    ensures Inv(Advance(db, t, claim, event))
  {
    var db' := Advance(db, t, claim, event);
    assert RowAgrees(t.id, db.tasks[t.id]) && FlagAgrees(db.tasks[t.id]);
    hide RowsAgree, Founded, DependencyOrder, AttemptsAgree, HistoryDense, OutboxAgrees, ParallelismBounded;
    hide RowAgrees, FlagAgrees, OneRowChanged, Advance;
    LegalRow(db, t, claim, event);
    LegalStart(db, t, claim, event);
    RowsKept(db, db', t.id);
    FoundedKept(db, db', t.id);
    OrderKept(db, db', t.id);
    ParallelismKept(db, db', t.id);
    HistoryKept(db, t, claim, event);
    OutboxKept(db, t, claim, event);
    AttemptsKept(db, t, claim, event);
  }

  // ----- So do insertions, heartbeats and delivery updates -----

  lemma InsertKeepsRows(db: Db, t: ChildTask, key: Option<string>, event: EventRow)
    requires RowsAgree(db) && Insertable(db, t, key, event)
    ensures RowsAgree(Insert(db, t, key, event))
  {
    hide DepsCompleted;
    var db' := Insert(db, t, key, event);
    assert RowAgrees(t.id, db'.tasks[t.id]) && FlagAgrees(db'.tasks[t.id]);
    assert t.id !in db.ids;
  }

  lemma InsertKeepsFounded(db: Db, t: ChildTask, key: Option<string>, event: EventRow)
    requires RowsAgree(db) && Founded(db) && Insertable(db, t, key, event)
    ensures Founded(Insert(db, t, key, event))
  {
    var db' := Insert(db, t, key, event);
    forall i, d | i in db'.tasks && d in Deps(db', i) ensures Earlier(db', d, i) {
      if i != t.id { assert d in Deps(db, i) && Earlier(db, d, i); } else { assert d in db.tasks; }
    }
    forall i | i in db'.tasks && Parent(db', i).Some? ensures Earlier(db', Parent(db', i).value, i) {
      if i != t.id { assert Earlier(db, Parent(db, i).value, i); } else { assert Parent(db', i).value in db.tasks; }
    }
  }

  lemma InsertKeepsOrder(db: Db, t: ChildTask, key: Option<string>, event: EventRow)
    requires DependencyOrder(db) && Insertable(db, t, key, event)
    ensures DependencyOrder(Insert(db, t, key, event))
  {
    var db' := Insert(db, t, key, event);
    forall i | i in db'.tasks && Started(db'.tasks[i]) ensures DepsCompleted(db', Deps(db', i)) {
      assert DepsCompleted(db, Deps(db', i));
      forall d | d in Deps(db', i) ensures HasStatus(db', d, Completed) { assert HasStatus(db, d, Completed); }
    }
  }

  lemma InsertKeepsParallelism(db: Db, t: ChildTask, key: Option<string>, event: EventRow)
    requires ParallelismBounded(db) && Founded(db) && Insertable(db, t, key, event)
    ensures ParallelismBounded(Insert(db, t, key, event))
  {
    hide DepsCompleted;
    var db' := Insert(db, t, key, event);
    forall p | p in db'.tasks ensures |ActiveChildren(db', p)| <= db'.tasks[p].snapshot.spec.maxParallelism {
      var after := ActiveChildren(db', p);
      if p == t.id {
        forall c ensures c !in after {
          assert c in db.tasks && Parent(db, c) == Some(p) ==> Earlier(db, p, c);
        }
        assert after == {};
      } else {
        assert |ActiveChildren(db, p)| <= db.tasks[p].snapshot.spec.maxParallelism;
        forall c | c in after ensures c in ActiveChildren(db, p) { assert c in db.tasks; }
        CardinalityOfSubset(after, ActiveChildren(db, p));
      }
    }
  }

  lemma InsertKeepsAttempts(db: Db, t: ChildTask, key: Option<string>, event: EventRow)
    requires AttemptsAgree(db) && Insertable(db, t, key, event)
    ensures AttemptsAgree(Insert(db, t, key, event))
  {
    hide DepsCompleted;
  }

  lemma InsertKeepsHistory(db: Db, t: ChildTask, key: Option<string>, event: EventRow)
    requires HistoryDense(db) && OutboxAgrees(db) && t.id !in db.tasks && t.revision == 0
    requires event.kind == Created && !Terminal(t.status)
    ensures HistoryDense(Insert(db, t, key, event)) && OutboxAgrees(Insert(db, t, key, event))
  {
    var db' := Insert(db, t, key, event);
    assert (t.id, 0) !in db.events;
    forall id: Id, k: nat ensures (id, k) in db'.events <==> id in db'.tasks && k <= db'.tasks[id].revision {
      assert (id, k) in db.events <==> id in db.tasks && k <= db.tasks[id].revision;
    }
  }

  lemma InsertKeepsInv(db: Db, t: ChildTask, key: Option<string>, event: EventRow)
    requires Inv(db) && Insertable(db, t, key, event)
    ensures Inv(Insert(db, t, key, event))
  {
    hide RowsAgree, Founded, DependencyOrder, AttemptsAgree, HistoryDense, OutboxAgrees, ParallelismBounded, Insert;
    InsertKeepsRows(db, t, key, event);
    InsertKeepsFounded(db, t, key, event);
    InsertKeepsOrder(db, t, key, event);
    InsertKeepsParallelism(db, t, key, event);
    InsertKeepsAttempts(db, t, key, event);
    InsertKeepsHistory(db, t, key, event);
  }

  /** A row write that leaves a task's status, revision and claim holder alone keeps
      everything that does not read the attempt or delivery tables. */
  lemma QuietWriteKeeps(db: Db, db': Db, id: Id)
    requires RowsAgree(db) && Founded(db) && DependencyOrder(db) && ParallelismBounded(db)
    requires OneRowChanged(db, db', id)
    requires RowAgrees(id, db'.tasks[id]) && FlagAgrees(db.tasks[id]) && FlagAgrees(db'.tasks[id])
    requires db'.tasks[id].status == db.tasks[id].status
    requires db'.tasks[id].snapshot.attemptCount == db.tasks[id].snapshot.attemptCount
    ensures RowsAgree(db') && Founded(db') && DependencyOrder(db') && ParallelismBounded(db')
  {
    hide RowsAgree, Founded, ParallelismBounded;
    assert Started(db.tasks[id]) ==> DepsCompleted(db, Deps(db, id));
    hide DependencyOrder;
    RowsKept(db, db', id);
    FoundedKept(db, db', id);
    OrderKept(db, db', id);
    ParallelismKept(db, db', id);
  }

  lemma BeatKeepsAttempts(db: Db, id: Id, lease: int, now: int)
    requires AttemptsAgree(db) && id in db.tasks && db.tasks[id].claim.Some?
    ensures AttemptsAgree(Beat(db, id, lease, now))
  {}

  lemma BeatKeepsHistory(db: Db, id: Id, lease: int, now: int)
    requires HistoryDense(db) && OutboxAgrees(db) && id in db.tasks && db.tasks[id].claim.Some?
    ensures HistoryDense(Beat(db, id, lease, now)) && OutboxAgrees(Beat(db, id, lease, now))
  {}

  lemma BeatChangesOneRow(db: Db, id: Id, lease: int, now: int)
    requires id in db.tasks && db.tasks[id].claim.Some?
    requires RowAgrees(id, db.tasks[id]) && FlagAgrees(db.tasks[id])
    ensures var db' := Beat(db, id, lease, now);
      && OneRowChanged(db, db', id)
      && RowAgrees(id, db'.tasks[id]) && FlagAgrees(db'.tasks[id])
      && db'.tasks[id].status == db.tasks[id].status
      && db'.tasks[id].snapshot.attemptCount == db.tasks[id].snapshot.attemptCount
  {}

  lemma BeatKeepsInv(db: Db, id: Id, lease: int, now: int)
    requires Inv(db) && id in db.tasks && db.tasks[id].claim.Some?
    ensures Inv(Beat(db, id, lease, now))
  {
    assert RowAgrees(id, db.tasks[id]) && FlagAgrees(db.tasks[id]);
    hide RowsAgree, Founded, DependencyOrder, AttemptsAgree, HistoryDense, OutboxAgrees, ParallelismBounded;
    hide RowAgrees, FlagAgrees, OneRowChanged, Beat;
    BeatChangesOneRow(db, id, lease, now);
    QuietWriteKeeps(db, Beat(db, id, lease, now), id);
    BeatKeepsAttempts(db, id, lease, now);
    BeatKeepsHistory(db, id, lease, now);
  }

  lemma DeliveryKeepsOutbox(db: Db, key: TaskKey, d: DeliveryRow, minted: nat)
    requires AttemptsAgree(db) && OutboxAgrees(db) && key in db.outbox && DeliveryAgrees(d)
    requires d.token.Some? ==> d.token.value < db.uuids + minted
    ensures AttemptsAgree(PutDelivery(db, key, d, minted)) && OutboxAgrees(PutDelivery(db, key, d, minted))
  {}

  lemma SameFounded(db: Db, db': Db)
    requires db'.tasks == db.tasks && Founded(db)
    ensures Founded(db')
  {
    forall i, d | i in db'.tasks && d in Deps(db', i) ensures Earlier(db', d, i) { assert Earlier(db, d, i); }
    forall i | i in db'.tasks && Parent(db', i).Some? ensures Earlier(db', Parent(db', i).value, i) {
      assert Earlier(db, Parent(db, i).value, i);
    }
  }

  lemma SameOrder(db: Db, db': Db)
    requires db'.tasks == db.tasks && DependencyOrder(db)
    ensures DependencyOrder(db')
  {
    forall id | id in db'.tasks && Started(db'.tasks[id]) ensures DepsCompleted(db', Deps(db', id)) {
      assert DepsCompleted(db, Deps(db, id));
      forall d | d in Deps(db', id) ensures HasStatus(db', d, Completed) { assert HasStatus(db, d, Completed); }
    }
  }

  lemma SameParallelism(db: Db, db': Db)
    requires db'.tasks == db.tasks && ParallelismBounded(db)
    ensures ParallelismBounded(db')
  {
    forall p | p in db'.tasks ensures |ActiveChildren(db', p)| <= db'.tasks[p].snapshot.spec.maxParallelism {
      assert ActiveChildren(db', p) == ActiveChildren(db, p);
    }
  }

  lemma SameRows(db: Db, db': Db)
    requires db'.tasks == db.tasks && db'.ids == db.ids && db'.creationKeys == db.creationKeys && db'.events == db.events
    requires RowsAgree(db) && HistoryDense(db)
    ensures RowsAgree(db') && HistoryDense(db')
  {
    hide RowAgrees, FlagAgrees, NoDuplicates;
  }

  lemma SameTasksSameOrder(db: Db, db': Db)
    requires db'.tasks == db.tasks && db'.ids == db.ids && db'.creationKeys == db.creationKeys && db'.events == db.events
    requires RowsAgree(db) && Founded(db) && DependencyOrder(db) && HistoryDense(db) && ParallelismBounded(db)
    ensures RowsAgree(db') && Founded(db') && DependencyOrder(db') && HistoryDense(db') && ParallelismBounded(db')
  {
    hide *;
    SameRows(db, db');
    SameFounded(db, db');
    SameOrder(db, db');
    SameParallelism(db, db');
  }

  lemma DeliveryKeepsInv(db: Db, key: TaskKey, d: DeliveryRow, minted: nat)
    requires Inv(db) && key in db.outbox && DeliveryAgrees(d)
    requires d.token.Some? ==> d.token.value < db.uuids + minted
    ensures Inv(PutDelivery(db, key, d, minted))
  {
    hide RowsAgree, Founded, DependencyOrder, AttemptsAgree, HistoryDense, OutboxAgrees, ParallelismBounded;
    SameTasksSameOrder(db, PutDelivery(db, key, d, minted));
    DeliveryKeepsOutbox(db, key, d, minted);
  }

  lemma EmptyInv()
    ensures Inv(EmptyDb)
  {}
}

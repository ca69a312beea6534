/** How the tables may change over time: what is never lost and never reused. */
module Growth {
  import opened Basics
  import opened Redaction
  import opened ChildModels
  import opened Tables
  import opened Invariants

  /** The claim columns name the same attempt; only the lease may differ. */
  predicate SameHolder(c: Option<Claim>, c': Option<Claim>) {
    c.Some? && c'.Some? && c.value == c'.value.(lease := c.value.lease)
  }

  predicate LaterRow(row: TaskRow, row': TaskRow) {
    && row'.rowid == row.rowid
    && CreationPayload(row'.snapshot) == CreationPayload(row.snapshot)
    && row'.snapshot.createdAt == row.snapshot.createdAt
    && row'.revision >= row.revision
    && (row'.revision == row.revision ==>
          row'.snapshot == row.snapshot && row'.status == row.status && (row.claim == row'.claim || SameHolder(row.claim, row'.claim)))
    && row'.snapshot.attemptCount >= row.snapshot.attemptCount
    && (row.status in {Completed, Cancelled} ==> row'.status == row.status && row'.revision == row.revision)
  }

  /** Tasks stay, in order, with the work they were created for; revisions and
      attempt counts only rise; COMPLETED and CANCELLED are final; history is kept. */
  ghost predicate LaterTasks(db: Db, db': Db) {
    && db.ids <= db'.ids
    && (forall id :: id in db.tasks ==> id in db'.tasks && LaterRow(db.tasks[id], db'.tasks[id]))
    && (forall k :: k in db.creationKeys ==> k in db'.creationKeys && db'.creationKeys[k] == db.creationKeys[k])
    && (forall k :: k in db.events ==> k in db'.events && db'.events[k] == db.events[k])
  }

  predicate LaterAttempt(a: AttemptRow, a': AttemptRow) {
    && a'.id == a.id && a'.token == a.token && a'.worker == a.worker
    && (a.status != Running ==> a' == a)
  }

  /** Attempts stay and close at most once; a new claim carries a new token. */
  ghost predicate LaterAttempts(db: Db, db': Db) {
    && db.uuids <= db'.uuids
    && (forall k :: k in db.attempts ==> k in db'.attempts && LaterAttempt(db.attempts[k], db'.attempts[k]))
    && (forall id :: id in db'.tasks && db'.tasks[id].claim.Some? ==>
          || db'.tasks[id].claim.value.token >= db.uuids
          || (id in db.tasks && SameHolder(db.tasks[id].claim, db'.tasks[id].claim)))
  }

  predicate LaterDelivery(d: DeliveryRow, d': DeliveryRow, uuids: nat) {
    && (d.status == DeliveryDelivered ==> d' == d)
    && (d'.token.Some? ==> d'.token == d.token || d'.token.value >= uuids)
  }

  /** Deliveries stay, DELIVERED is final, and a new claim carries a new token. */
  ghost predicate LaterOutbox(db: Db, db': Db) {
    forall k :: k in db.outbox ==> k in db'.outbox && LaterDelivery(db.outbox[k], db'.outbox[k], db.uuids)
  }

  ghost predicate Later(db: Db, db': Db) {
    LaterTasks(db, db') && LaterAttempts(db, db') && LaterOutbox(db, db')
  }

  /** Stored payloads are already redacted. */
  ghost predicate Redacted(r: Redactor, db: Db) {
    forall id :: id in db.tasks ==>
      RedactPayload(r, CreationPayload(db.tasks[id].snapshot)) == CreationPayload(db.tasks[id].snapshot)
  }

  ghost predicate Good(r: Redactor, db: Db) {
    Inv(db) && Redacted(r, db)
  }

  lemma GoodParts(r: Redactor, db: Db)
    requires Good(r, db)
    ensures RowsAgree(db) && Founded(db) && DependencyOrder(db) && AttemptsAgree(db)
    ensures HistoryDense(db) && OutboxAgrees(db) && ParallelismBounded(db) && Redacted(r, db)
  {
    hide RowsAgree, Founded, DependencyOrder, AttemptsAgree, HistoryDense, OutboxAgrees, ParallelismBounded, Redacted;
  }

  lemma GoodInv(r: Redactor, db: Db)
    ensures Good(r, db) <==> Inv(db) && Redacted(r, db)
  {}

  lemma LaterFrom(db: Db, db': Db)
    ensures LaterTasks(db, db') && LaterAttempts(db, db') && LaterOutbox(db, db') ==> Later(db, db')
  {}

  lemma AgreesAt(db: Db, id: Id)
    requires RowsAgree(db) && id in db.tasks
    ensures RowAgrees(id, db.tasks[id]) && FlagAgrees(db.tasks[id])
  {}

  // ----- Reflexive and transitive -----

  lemma LaterRefl(db: Db)
    ensures Later(db, db)
  {}

  lemma LaterTrans(a: Db, b: Db, c: Db)
    requires Later(a, b) && Later(b, c)
    ensures Later(a, c)
  {
    LaterTasksTrans(a, b, c);
    LaterAttemptsTrans(a, b, c);
    forall k | k in a.outbox ensures k in c.outbox && LaterDelivery(a.outbox[k], c.outbox[k], a.uuids) {
      assert LaterDelivery(a.outbox[k], b.outbox[k], a.uuids);
      assert LaterDelivery(b.outbox[k], c.outbox[k], b.uuids);
    }
  }

  lemma LaterTasksTrans(a: Db, b: Db, c: Db)
    requires LaterTasks(a, b) && LaterTasks(b, c)
    ensures LaterTasks(a, c)
  {
    forall id | id in a.tasks ensures id in c.tasks && LaterRow(a.tasks[id], c.tasks[id]) {
      assert LaterRow(a.tasks[id], b.tasks[id]) && LaterRow(b.tasks[id], c.tasks[id]);
    }
  }

  lemma LaterAttemptsTrans(a: Db, b: Db, c: Db)
    requires LaterAttempts(a, b) && LaterAttempts(b, c)
    ensures LaterAttempts(a, c)
  {
    forall k | k in a.attempts ensures k in c.attempts && LaterAttempt(a.attempts[k], c.attempts[k]) {
      assert LaterAttempt(a.attempts[k], b.attempts[k]) && LaterAttempt(b.attempts[k], c.attempts[k]);
    }
  }

  // ----- Every row write is such a change -----

  lemma LegalGrowsTasks(db: Db, t: ChildTask, claim: Option<Claim>, event: EventRow)
    requires Legal(db, t, claim, event) && HistoryDense(db)
    requires RowAgrees(t.id, db.tasks[t.id]) && FlagAgrees(db.tasks[t.id])
    ensures LaterTasks(db, Advance(db, t, claim, event))
  {
    var db' := Advance(db, t, claim, event);
    assert (t.id, t.revision) !in db.events;
    assert LaterRow(db.tasks[t.id], db'.tasks[t.id]);
  }

  lemma NextAttemptFree(db: Db, id: Id)
    requires AttemptsAgree(db) && id in db.tasks
    ensures (id, db.tasks[id].snapshot.attemptCount + 1) !in db.attempts
    ensures var newest := (id, db.tasks[id].snapshot.attemptCount);
      db.tasks[id].status == Running && newest in db.attempts ==> db.attempts[newest].status == Running
  {}

  lemma AttemptsAdvance(db: Db, t: ChildTask, claim: Option<Claim>, event: EventRow)
    requires t.id in db.tasks
    requires t.attemptCount == db.tasks[t.id].snapshot.attemptCount + (if t.status == Running && db.tasks[t.id].status != Running then 1 else 0)
    requires (t.id, db.tasks[t.id].snapshot.attemptCount + 1) !in db.attempts
    requires var newest := (t.id, db.tasks[t.id].snapshot.attemptCount);
      db.tasks[t.id].status == Running && newest in db.attempts ==> db.attempts[newest].status == Running
    requires claim.Some? <==> t.status == Running
    ensures var db' := Advance(db, t, claim, event);
      forall k :: k in db.attempts ==> k in db'.attempts && LaterAttempt(db.attempts[k], db'.attempts[k])
  {}

  lemma ClaimsAdvance(db: Db, t: ChildTask, claim: Option<Claim>, event: EventRow)
    requires t.id in db.tasks
    requires claim.Some? ==> claim.value.token >= db.uuids || SameHolder(db.tasks[t.id].claim, claim)
    ensures var db' := Advance(db, t, claim, event);
      && db.uuids <= db'.uuids
      && forall id :: id in db'.tasks && db'.tasks[id].claim.Some? ==>
           || db'.tasks[id].claim.value.token >= db.uuids
           || (id in db.tasks && SameHolder(db.tasks[id].claim, db'.tasks[id].claim))
  {}

  lemma LegalClaim(db: Db, t: ChildTask, claim: Option<Claim>, event: EventRow)
    requires Legal(db, t, claim, event) && RowAgrees(t.id, db.tasks[t.id])
    ensures claim.Some? <==> t.status == Running
    ensures t.attemptCount == db.tasks[t.id].snapshot.attemptCount + (if t.status == Running && db.tasks[t.id].status != Running then 1 else 0)
    ensures claim.Some? ==> claim.value.token >= db.uuids || SameHolder(db.tasks[t.id].claim, claim)
  {}

  lemma LegalGrowsAttempts(db: Db, t: ChildTask, claim: Option<Claim>, event: EventRow)
    requires Legal(db, t, claim, event) && AttemptsAgree(db)
    requires RowAgrees(t.id, db.tasks[t.id])
    ensures LaterAttempts(db, Advance(db, t, claim, event))
  {
    LegalClaim(db, t, claim, event);
    NextAttemptFree(db, t.id);
    hide Legal, AttemptsAgree, RowAgrees;
    AttemptsAdvance(db, t, claim, event);
    ClaimsAdvance(db, t, claim, event);
    hide Advance, SameHolder, LaterAttempt;
  }

  lemma LegalGrowsOutbox(db: Db, t: ChildTask, claim: Option<Claim>, event: EventRow)
    requires Legal(db, t, claim, event) && HistoryDense(db) && OutboxAgrees(db)
    ensures LaterOutbox(db, Advance(db, t, claim, event))
  {
    assert (t.id, t.revision) !in db.events;
    assert (t.id, t.revision) !in db.outbox;
    assert forall k :: k in db.outbox ==> LaterDelivery(db.outbox[k], db.outbox[k], db.uuids);
  }

  lemma RedactedAdvance(r: Redactor, db: Db, t: ChildTask, claim: Option<Claim>, event: EventRow)
    requires Redacted(r, db) && Legal(db, t, claim, event)
    ensures Redacted(r, Advance(db, t, claim, event))
  {
    hide LegalStatus;
  }

  lemma LegalPresent(db: Db, t: ChildTask, claim: Option<Claim>, event: EventRow)
    requires Legal(db, t, claim, event)
    ensures t.id in db.tasks
  {}

  /** A legal row transition keeps every invariant and loses nothing. */
  lemma AdvanceGrows(r: Redactor, db: Db, t: ChildTask, claim: Option<Claim>, event: EventRow)
    requires Good(r, db) && Legal(db, t, claim, event)
    ensures Good(r, Advance(db, t, claim, event)) && Later(db, Advance(db, t, claim, event))
  {
    LegalPresent(db, t, claim, event);
    hide *;
    var db' := Advance(db, t, claim, event);
    GoodInv(r, db);
    GoodInv(r, db');
    GoodParts(r, db);
    AgreesAt(db, t.id);
    RedactedAdvance(r, db, t, claim, event);
    AdvanceKeepsInv(db, t, claim, event);
    LegalGrowsTasks(db, t, claim, event);
    LegalGrowsAttempts(db, t, claim, event);
    LegalGrowsOutbox(db, t, claim, event);
    LaterFrom(db, db');
  }

  lemma SameTasks(db: Db, db': Db)
    requires db'.ids == db.ids && db'.tasks == db.tasks && db'.creationKeys == db.creationKeys && db'.events == db.events
    ensures LaterTasks(db, db')
  {}

  lemma SameAttempts(db: Db, db': Db)
    requires db'.attempts == db.attempts && db.uuids <= db'.uuids && db'.tasks.Keys >= db.tasks.Keys
    requires forall id :: id in db.tasks ==> db'.tasks[id].claim == db.tasks[id].claim
    requires forall id :: id in db'.tasks && id !in db.tasks ==> db'.tasks[id].claim.None?
    ensures LaterAttempts(db, db')
  {
  }

  lemma SameOutbox(db: Db, db': Db)
    requires db'.outbox == db.outbox
    ensures LaterOutbox(db, db')
  {}

  lemma RedactedInsert(r: Redactor, db: Db, t: ChildTask, key: Option<string>, event: EventRow)
    requires Redacted(r, db) && RedactPayload(r, CreationPayload(t)) == CreationPayload(t)
    ensures Redacted(r, Insert(db, t, key, event))
  {
    hide RedactPayload;
  }

  lemma TasksInsert(db: Db, t: ChildTask, key: Option<string>, event: EventRow)
    requires (t.id, 0) !in db.events && t.id !in db.tasks && (key.Some? ==> key.value !in db.creationKeys)
    ensures LaterTasks(db, Insert(db, t, key, event))
  {}

  lemma NewTaskUnlogged(db: Db, id: Id)
    requires HistoryDense(db) && id !in db.tasks
    ensures (id, 0) !in db.events
  {}

  lemma InsertGrowsTables(r: Redactor, db: Db, t: ChildTask, key: Option<string>, event: EventRow)
    requires HistoryDense(db) && Redacted(r, db)
    requires t.id !in db.tasks && (key.Some? ==> key.value !in db.creationKeys)
    requires RedactPayload(r, CreationPayload(t)) == CreationPayload(t)
    ensures Redacted(r, Insert(db, t, key, event)) && Later(db, Insert(db, t, key, event))
  {
    NewTaskUnlogged(db, t.id);
    hide HistoryDense, Redacted, RedactPayload, LaterTasks, LaterAttempts, LaterOutbox;
    RedactedInsert(r, db, t, key, event);
    TasksInsert(db, t, key, event);
    SameAttempts(db, Insert(db, t, key, event));
    SameOutbox(db, Insert(db, t, key, event));
  }

  lemma InsertGrows(r: Redactor, db: Db, t: ChildTask, key: Option<string>, event: EventRow)
    requires Good(r, db) && Insertable(db, t, key, event)
    requires RedactPayload(r, CreationPayload(t)) == CreationPayload(t)
    ensures Good(r, Insert(db, t, key, event)) && Later(db, Insert(db, t, key, event))
  {
    hide RowsAgree, Founded, DependencyOrder, AttemptsAgree, HistoryDense, OutboxAgrees, ParallelismBounded;
    hide Redacted, Insert, Later;
    InsertKeepsInv(db, t, key, event);
    InsertGrowsTables(r, db, t, key, event);
  }

  lemma BeatGrowsTables(r: Redactor, db: Db, id: Id, lease: int, now: int)
    requires Redacted(r, db) && id in db.tasks && db.tasks[id].claim.Some?
    requires var key := (id, db.tasks[id].snapshot.attemptCount); key in db.attempts && db.attempts[key].status == Running
    requires RowAgrees(id, db.tasks[id])
    ensures Redacted(r, Beat(db, id, lease, now)) && Later(db, Beat(db, id, lease, now))
  {
    hide RedactPayload;
    var db' := Beat(db, id, lease, now);
    SameOutbox(db, db');
    assert LaterTasks(db, db');
    hide LaterTasks, LaterOutbox;
    assert LaterAttempts(db, db');
  }

  lemma BeatGrows(r: Redactor, db: Db, id: Id, lease: int, now: int)
    requires Good(r, db) && id in db.tasks && db.tasks[id].claim.Some?
    ensures Good(r, Beat(db, id, lease, now)) && Later(db, Beat(db, id, lease, now))
  {
    var key := (id, db.tasks[id].snapshot.attemptCount);
    assert RowAgrees(id, db.tasks[id]);
    assert key in db.attempts && AttemptMatches(db.attempts[key], db.tasks[id].claim.value);
    hide RowsAgree, Founded, DependencyOrder, AttemptsAgree, HistoryDense, OutboxAgrees, ParallelismBounded;
    hide Redacted, Beat, Later, RowAgrees;
    BeatKeepsInv(db, id, lease, now);
    BeatGrowsTables(r, db, id, lease, now);
  }

  lemma DeliveryGrowsTables(r: Redactor, db: Db, key: TaskKey, d: DeliveryRow, minted: nat)
    requires Redacted(r, db) && key in db.outbox && LaterDelivery(db.outbox[key], d, db.uuids)
    ensures Redacted(r, PutDelivery(db, key, d, minted)) && Later(db, PutDelivery(db, key, d, minted))
  {
    var db' := PutDelivery(db, key, d, minted);
    SameTasks(db, db');
    SameAttempts(db, db');
    hide LaterTasks, LaterAttempts, RedactPayload;
  }

  lemma DeliveryGrows(r: Redactor, db: Db, key: TaskKey, d: DeliveryRow, minted: nat)
    requires Good(r, db) && key in db.outbox && DeliveryAgrees(d)
    requires LaterDelivery(db.outbox[key], d, db.uuids)
    requires d.token.Some? ==> d.token.value < db.uuids + minted
    ensures Good(r, PutDelivery(db, key, d, minted)) && Later(db, PutDelivery(db, key, d, minted))
  {
    hide RowsAgree, Founded, DependencyOrder, AttemptsAgree, HistoryDense, OutboxAgrees, ParallelismBounded;
    hide Redacted, PutDelivery, Later;
    DeliveryKeepsInv(db, key, d, minted);
    DeliveryGrowsTables(r, db, key, d, minted);
  }
}

/**
 The single-table writes of the store, and how they add up to one row transition.
 */
module Writes {
  import opened Basics
  import opened Redaction
  import opened ChildModels
  import opened Tables
  import opened Protocol
  import opened Invariants
  import opened Growth
  import opened Steps
  import opened Transactions

  /** `_update_snapshot`, once its revision check has passed. */
  function Written(db: Db, t: ChildTask, clear: bool): Db
    requires t.id in db.tasks
  {
    db.(tasks := db.tasks[t.id := RowFor(db.tasks[t.id], t, if clear then None else db.tasks[t.id].claim)])
  }

  /** The newest running attempt of a task, up to attempt `n`; with `which`, the one with that id. */
  function RunningAttempt(db: Db, id: Id, n: nat, which: Option<nat>): (k: Option<nat>)
    ensures k.Some? ==> (id, k.value) in db.attempts && db.attempts[(id, k.value)].status == Running
  {
    if n == 0 then None
    else if (id, n) in db.attempts && db.attempts[(id, n)].status == Running
            && (which.Some? ==> db.attempts[(id, n)].id == which.value) then Some(n)
    else RunningAttempt(db, id, n - 1, which)
  }

  /** `_terminalize_attempt` for a task that ended as `t`. */
  function Closed(db: Db, t: ChildTask, which: Option<nat>, now: int): Db {
    match RunningAttempt(db, t.id, t.attemptCount, which)
    case None => db
    case Some(k) => db.(attempts := db.attempts[(t.id, k) := ClosedAttempt(db.attempts[(t.id, k)], t, now)])
  }

  /** `_insert_delivery`, which ignores a row that exists already. */
  function Owing(db: Db, t: ChildTask, now: int): Db {
    var key := (t.id, t.revision);
    if key in db.outbox then db else db.(sent := db.sent + [key], outbox := db.outbox[key := NewDelivery(now)])
  }

  function Logged(db: Db, t: ChildTask, event: EventRow): Db {
    db.(events := db.events[(t.id, t.revision) := event])
  }

  // ----- Together they make one row transition -----

  lemma QuietWrites(db: Db, t: ChildTask, clear: bool, event: EventRow)
    requires t.id in db.tasks && !Terminal(t.status) && (t.status == Running <==> db.tasks[t.id].status == Running)
    ensures Logged(Written(db, t, clear), t, event) ==
      Advance(db, t, if clear then None else db.tasks[t.id].claim, event)
  {}

  lemma NoneRunning(db: Db, id: Id, n: nat, which: Option<nat>)
    requires AttemptsAgree(db) && id in db.tasks && db.tasks[id].status != Running
    ensures RunningAttempt(db, id, n, which).None?
  {
    hide NoDuplicates;
  }

  lemma NewestRunning(db: Db, id: Id, which: Option<nat>)
    requires AttemptsAgree(db) && id in db.tasks && db.tasks[id].status == Running && db.tasks[id].claim.Some?
    requires which.Some? ==> which.value == db.tasks[id].claim.value.attemptId
    ensures RunningAttempt(db, id, db.tasks[id].snapshot.attemptCount, which) == Some(db.tasks[id].snapshot.attemptCount)
  {
    var key := (id, db.tasks[id].snapshot.attemptCount);
    assert key in db.attempts && AttemptMatches(db.attempts[key], db.tasks[id].claim.value);
  }

  lemma {:induction false} SameAttemptsSameRunning(db: Db, db': Db, id: Id, n: nat, which: Option<nat>)
    requires db'.attempts == db.attempts
    ensures RunningAttempt(db', id, n, which) == RunningAttempt(db, id, n, which)
  {
    if n > 0 { SameAttemptsSameRunning(db, db', id, n - 1, which); }
  }

  lemma ClosedAfterWrite(db: Db, t: ChildTask, which: Option<nat>, now: int)
    requires AttemptsAgree(db) && t.id in db.tasks && t.attemptCount == db.tasks[t.id].snapshot.attemptCount
    requires db.tasks[t.id].status == Running <==> db.tasks[t.id].claim.Some?
    requires which.Some? ==> db.tasks[t.id].claim.Some? && which.value == db.tasks[t.id].claim.value.attemptId
    requires Terminal(t.status)
    ensures Closed(Written(db, t, true), t, which, now) ==
      Written(db, t, true).(attempts := AttemptsAfter(db, db.tasks[t.id], t, None, now))
  {
    SameAttemptsSameRunning(db, Written(db, t, true), t.id, t.attemptCount, which);
    if db.tasks[t.id].status == Running {
      NewestRunning(db, t.id, which);
      var key := (t.id, t.attemptCount);
      assert key in db.attempts;
    } else {
      NoneRunning(db, t.id, t.attemptCount, which);
    }
    hide AttemptsAgree, RunningAttempt;
  }

  /** Ending a task: the row, the attempt it had, the delivery it owes, and the event. */
  lemma EndWrites(db: Db, t: ChildTask, which: Option<nat>, event: EventRow)
    requires AttemptsAgree(db) && t.id in db.tasks && t.attemptCount == db.tasks[t.id].snapshot.attemptCount
    requires db.tasks[t.id].status == Running <==> db.tasks[t.id].claim.Some?
    requires which.Some? ==> db.tasks[t.id].claim.Some? && which.value == db.tasks[t.id].claim.value.attemptId
    requires Terminal(t.status) && (t.id, t.revision) !in db.outbox
    ensures Logged(Owing(Closed(Written(db, t, true), t, which, event.at), t, event.at), t, event) ==
      Advance(db, t, None, event)
  {
    ClosedAfterWrite(db, t, which, event.at);
    hide Closed, AttemptsAgree, AttemptsAfter;
  }

  /** The revision a write takes next is not logged or owed yet. */
  lemma NextRevisionFree(r: Redactor, db: Db, id: Id, k: nat)
    requires Good(r, db) && id in db.tasks && k == db.tasks[id].revision + 1
    ensures (id, k) !in db.events && (id, k) !in db.outbox
  {
    hide RowsAgree, Founded, DependencyOrder, AttemptsAgree, ParallelismBounded, Redacted, NoDuplicates;
  }
}

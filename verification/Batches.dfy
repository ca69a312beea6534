/**
 The two calls that move many tasks at once, cancellation and recovery: what is written for
 each task they move, and that they answer with these tasks, in the order they are listed.
 */
module Batches {
  import opened Basics
  import opened Redaction
  import opened ChildModels
  import opened Transitions
  import opened Tables
  import opened Listing
  import opened Protocol
  import opened Invariants
  import opened Growth
  import opened Steps
  import opened Transactions
  import opened Footprints
  import opened Guarantees
  import opened Writes
  import opened Frames
  import opened Recovery
  import opened Effects

  /** The answer lists these tasks, in this order, as they are stored. */
  ghost predicate Lists(db: Db, answer: seq<ChildTask>, ids: seq<Id>) {
    && |answer| == |ids|
    && forall i :: 0 <= i < |ids| ==> ids[i] in db.tasks && answer[i] == db.tasks[ids[i]].snapshot && answer[i].id == ids[i]
  }

  lemma ListsNothing(db: Db)
    ensures Lists(db, [], [])
  {}

  lemma ListsMore(db: Db, t: ChildTask, answer: seq<ChildTask>, ids: seq<Id>)
    requires Lists(db, answer, ids) && t.id in db.tasks && db.tasks[t.id].snapshot == t
    ensures Lists(db, [t] + answer, [t.id] + ids)
  {}

  lemma DeliveriesKeptTrans(a: Db, b: Db, c: Db)
    requires DeliveriesKept(a, b) && DeliveriesKept(b, c)
    ensures DeliveriesKept(a, c)
  {}

  // ----- Cancelling a subtree -----

  /** A task that had not ended is flagged while it runs, and otherwise ends. */
  predicate CancelledAs(r: Redactor, was: ChildTask, u: ChildTask, reason: Name, now: int) {
    && u.id == was.id && CreationPayload(u) == CreationPayload(was) && u.createdAt == was.createdAt
    && u.attemptCount == was.attemptCount && u.revision == was.revision + 1 && u.updatedAt == now && u.cancelRequested
    && (was.status == Running ==>
          u.status == Running && u.completedAt == was.completedAt && u.reason == RedactOption(r, was.reason))
    && (was.status != Running ==>
          u.status == Status.Cancelled && u.completedAt == Some(now) && u.reason == Some(r.text(reason)))
  }

  lemma CancelledMeans(r: Redactor, db: Db, id: Id, reason: Name, now: int)
    requires Good(r, db) && id in db.tasks && !Terminal(db.tasks[id].status)
    ensures CancelledAs(r, TaskAt(db, id), CancelledTask(r, TaskAt(db, id), reason, now), reason, now)
  {
    hide Good, RedactPayload, RedactResultOption;
    RunningTask(r, db, id);
    var flagged := TaskAt(db, id).(cancelRequested := true);
    RewrittenFacts(r, if flagged.status == Running then flagged else EndedAs(flagged, Status.Cancelled, reason, now), now);
    hide Rewritten;
  }

  /** What a cancellation of `root` leaves of one task: its row, its event and its delivery. */
  ghost predicate CancelNoted(r: Redactor, db: Db, db': Db, id: Id, root: Id, actor: Name, reason: Name, now: int) {
    && id in db.tasks && id in db'.tasks
    && var was, u := TaskAt(db, id), db'.tasks[id].snapshot;
    && CancelledAs(r, was, u, reason, now)
    && OnRecord(db', u, if was.status == Running then db.tasks[id].claim else None,
                EventRow(if was.status == Running then CancellationRequested else Ended(Status.Cancelled), actor, Some(root), now))
  }

  lemma CancelOneNoted(r: Redactor, db: Db, id: Id, root: Id, actor: Name, reason: Name, now: int)
    requires Good(r, db) && id in db.tasks && !Terminal(db.tasks[id].status)
    ensures var mid := CancelOne(db, r, id, root, actor, reason, now);
      && CancelNoted(r, db, mid, id, root, actor, reason, now)
      && mid.tasks[id].snapshot == CancelledTask(r, TaskAt(db, id), reason, now)
      && mid.attempts == db.attempts && DeliveriesKept(db, mid)
  {
    hide Good, CancelledTask, OnRecord, Legal, DeliveriesKept, TaskAt, NowCancelled, AttemptsAgree;
    var was, u := TaskAt(db, id), CancelledTask(r, TaskAt(db, id), reason, now);
    var claim := if Terminal(u.status) then None else db.tasks[id].claim;
    CancelledMeans(r, db, id, reason, now);
    CancelLegal(r, db, id, root, actor, reason, now);
    AdvanceRecords(db, u, claim, CancelEvent(u, root, actor, now));
    AdvanceOutbox(r, db, u, claim, CancelEvent(u, root, actor, now));
    RecordRow(Advance(db, u, claim, CancelEvent(u, root, actor, now)), u, claim, CancelEvent(u, root, actor, now));
    RunningTask(r, db, id);
  }

  lemma AdvanceOutbox(r: Redactor, db: Db, t: ChildTask, claim: Option<Claim>, event: EventRow)
    requires Good(r, db) && Legal(db, t, claim, event)
    ensures t.id in db.tasks && DeliveriesKept(db, Advance(db, t, claim, event))
  {
    hide *;
    LegalNumbers(db, t, claim, event);
    NextRevisionFree(r, db, t.id, t.revision);
    FreshDelivery(db, t, claim, event);
  }

  lemma FreshDelivery(db: Db, t: ChildTask, claim: Option<Claim>, event: EventRow)
    requires t.id in db.tasks && (t.id, t.revision) !in db.outbox
    ensures DeliveriesKept(db, Advance(db, t, claim, event))
  {}

  lemma CancelRowsAnswer(db: Db, r: Redactor, rows: seq<Id>, root: Id, actor: Name, reason: Name, now: int)
    requires rows != [] && AllPresent(db, rows)
    ensures rows[0] in db.tasks
    ensures var mid := CancelHead(db, r, rows, root, actor, reason, now);
      && AllPresent(mid, rows[1..])
      && var rest := CancelRows(mid, r, rows[1..], root, actor, reason, now);
      && CancelRows(db, r, rows, root, actor, reason, now) ==
           (rest.0, if Terminal(db.tasks[rows[0]].status) then rest.1
                    else [CancelledTask(r, TaskAt(db, rows[0]), reason, now)] + rest.1)
  {
    hide CancelledTask, CancelEvent, Advance;
    assert rows[0] in db.tasks;
    var mid := CancelHead(db, r, rows, root, actor, reason, now);
    forall id | id in rows[1..] ensures id in mid.tasks { assert id in rows && id in db.tasks.Keys; }
  }

  /** `live` are the tasks, among the rows, that have not ended. */
  ghost predicate LiveAmong(db: Db, rows: seq<Id>, live: set<Id>) {
    forall id :: id in rows ==> id in db.tasks && (id in live <==> !Terminal(db.tasks[id].status))
  }

  ghost predicate AllCancelNoted(r: Redactor, db: Db, db': Db, rows: seq<Id>, live: set<Id>, root: Id, actor: Name, reason: Name, now: int) {
    forall id :: id in rows && id in live ==> CancelNoted(r, db, db', id, root, actor, reason, now)
  }

  lemma CancelNotedStays(r: Redactor, db: Db, mid: Db, db': Db, id: Id, root: Id, actor: Name, reason: Name, now: int)
    requires CancelNoted(r, db, mid, id, root, actor, reason, now)
    requires LaterTasks(mid, db') && DeliveriesKept(mid, db') && id in mid.tasks && id in db'.tasks && db'.tasks[id] == mid.tasks[id]
    ensures CancelNoted(r, db, db', id, root, actor, reason, now)
  {
    var was, u := TaskAt(db, id), mid.tasks[id].snapshot;
    assert u.id == id;
    hide CancelledAs, OnRecord, LaterTasks, DeliveriesKept;
    RecordStays(mid, db', u, if was.status == Running then db.tasks[id].claim else None,
                EventRow(if was.status == Running then CancellationRequested else Ended(Status.Cancelled), actor, Some(root), now));
  }

  lemma CancelNotedBefore(r: Redactor, db: Db, mid: Db, db': Db, id: Id, root: Id, actor: Name, reason: Name, now: int)
    requires CancelNoted(r, mid, db', id, root, actor, reason, now)
    requires id in db.tasks && id in mid.tasks && mid.tasks[id] == db.tasks[id]
    ensures CancelNoted(r, db, db', id, root, actor, reason, now)
  {
    hide CancelledAs, OnRecord;
  }

  lemma TailUntouched(db: Db, mid: Db, rows: seq<Id>, live: set<Id>)
    requires rows != [] && NoDuplicates(rows) && LiveAmong(db, rows, live) && OthersKept(db, mid, {rows[0]})
    ensures LiveAmong(mid, rows[1..], live)
    ensures forall id :: id in rows[1..] ==> id in db.tasks && id in mid.tasks && mid.tasks[id] == db.tasks[id]
  {
    TailDistinct(rows);
    forall id | id in rows[1..]
      ensures id in db.tasks && id in mid.tasks && mid.tasks[id] == db.tasks[id] && (id in live <==> !Terminal(mid.tasks[id].status))
    {
      assert id in rows;
      OthersRow(db, mid, {rows[0]}, id);
    }
  }

  lemma HeadAlive(db: Db, rows: seq<Id>, live: set<Id>)
    requires rows != [] && LiveAmong(db, rows, live)
    ensures rows[0] in db.tasks && (rows[0] in live <==> !Terminal(db.tasks[rows[0]].status))
  {}

  lemma OthersReflexive(db: Db, touched: set<Id>)
    ensures OthersKept(db, db, touched)
  {}

  lemma DeliveriesReflexive(db: Db)
    ensures DeliveriesKept(db, db)
  {}

  lemma AllNotedJoin(r: Redactor, db: Db, mid: Db, db': Db, rows: seq<Id>, live: set<Id>, root: Id, actor: Name, reason: Name, now: int)
    requires rows != [] && AllCancelNoted(r, mid, db', rows[1..], live, root, actor, reason, now)
    requires forall id :: id in rows[1..] ==> id in db.tasks && id in mid.tasks && mid.tasks[id] == db.tasks[id]
    requires rows[0] in live ==> CancelNoted(r, db, db', rows[0], root, actor, reason, now)
    ensures AllCancelNoted(r, db, db', rows, live, root, actor, reason, now)
  {
    hide CancelNoted;
    forall id | id in rows && id in live ensures CancelNoted(r, db, db', id, root, actor, reason, now) {
      if id != rows[0] {
        assert id in rows[1..];
        CancelNotedBefore(r, db, mid, db', id, root, actor, reason, now);
      }
    }
  }

  lemma NothingNoted(r: Redactor, db: Db, rows: seq<Id>, live: set<Id>, root: Id, actor: Name, reason: Name, now: int)
    requires rows == [] && AllPresent(db, rows)
    ensures AllCancelNoted(r, db, db, rows, live, root, actor, reason, now) && Picked(rows, live) == []
    ensures CancelRows(db, r, rows, root, actor, reason, now) == (db, [])
  {}

  lemma PickedHead(rows: seq<Id>, live: set<Id>)
    requires rows != []
    ensures Picked(rows, live) == if rows[0] in live then [rows[0]] + Picked(rows[1..], live) else Picked(rows[1..], live)
  {}

  /** The row of the head is not written again further down. */
  lemma HeadStays(r: Redactor, mid: Db, rows: seq<Id>, root: Id, actor: Name, reason: Name, now: int)
    requires rows != [] && Good(r, mid) && NoDuplicates(rows) && AllPresent(mid, rows[1..]) && rows[0] in mid.tasks
    ensures var db' := CancelRows(mid, r, rows[1..], root, actor, reason, now).0;
      rows[0] in db'.tasks && db'.tasks[rows[0]] == mid.tasks[rows[0]] && LaterTasks(mid, db')
  {
    TailDistinct(rows);
    assert rows[0] !in Live(mid, rows[1..]);
    hide *;
    CancelRowsSafe(r, mid, rows[1..], root, actor, reason, now);
    var db' := CancelRows(mid, r, rows[1..], root, actor, reason, now).0;
    SafeTasks(r, mid, db');
    OthersRow(mid, db', Live(mid, rows[1..]), rows[0]);
  }

  lemma CancelHeadNoted(r: Redactor, db: Db, rows: seq<Id>, live: set<Id>, root: Id, actor: Name, reason: Name, now: int)
    requires Good(r, db) && rows != [] && NoDuplicates(rows) && LiveAmong(db, rows, live) && rows[0] in db.tasks
    ensures var mid := CancelHead(db, r, rows, root, actor, reason, now);
      && Good(r, mid) && LiveAmong(mid, rows[1..], live) && rows[0] in mid.tasks
      && (forall id :: id in rows[1..] ==> id in db.tasks && id in mid.tasks && mid.tasks[id] == db.tasks[id])
      && mid.attempts == db.attempts && DeliveriesKept(db, mid)
      && (rows[0] in live ==>
            && CancelNoted(r, db, mid, rows[0], root, actor, reason, now)
            && mid.tasks[rows[0]].snapshot == CancelledTask(r, TaskAt(db, rows[0]), reason, now))
  {
    assert Terminal(db.tasks[rows[0]].status) ==> CancelHead(db, r, rows, root, actor, reason, now) == db;
    assert !Terminal(db.tasks[rows[0]].status) ==>
      CancelHead(db, r, rows, root, actor, reason, now) == CancelOne(db, r, rows[0], root, actor, reason, now) by { hide CancelOne; }
    hide *;
    HeadAlive(db, rows, live);
    CancelHeadSafe(r, db, rows, root, actor, reason, now);
    var mid := CancelHead(db, r, rows, root, actor, reason, now);
    SafeGood(r, db, mid);
    DeliveriesReflexive(db);
    if rows[0] in live {
      CancelOneNoted(r, db, rows[0], root, actor, reason, now);
    } else {
      OthersReflexive(db, {rows[0]});
    }
    TailUntouched(db, mid, rows, live);
  }

  lemma CancelledNamed(r: Redactor, db: Db, id: Id, reason: Name, now: int)
    requires id in db.tasks
    ensures CancelledTask(r, TaskAt(db, id), reason, now).id == id
  {
    hide CancelledTask;
  }

  lemma {:induction false} CancelRowsNoted(r: Redactor, db: Db, rows: seq<Id>, live: set<Id>, root: Id, actor: Name, reason: Name, now: int)
    requires Good(r, db) && NoDuplicates(rows) && AllPresent(db, rows) && LiveAmong(db, rows, live)
    ensures var (db', answer) := CancelRows(db, r, rows, root, actor, reason, now);
      && AllCancelNoted(r, db, db', rows, live, root, actor, reason, now)
      && Lists(db', answer, Picked(rows, live))
      && db'.attempts == db.attempts && DeliveriesKept(db, db')
    decreases |rows|
  {
    hide *;
    var (db', answer) := CancelRows(db, r, rows, root, actor, reason, now);
    if rows == [] {
      NothingNoted(r, db, rows, live, root, actor, reason, now);
      ListsNothing(db);
      DeliveriesReflexive(db);
    } else {
      CancelRowsAnswer(db, r, rows, root, actor, reason, now);
      CancelHeadNoted(r, db, rows, live, root, actor, reason, now);
      HeadAlive(db, rows, live);
      TailDistinct(rows);
      var mid := CancelHead(db, r, rows, root, actor, reason, now);
      CancelRowsNoted(r, mid, rows[1..], live, root, actor, reason, now);
      HeadStays(r, mid, rows, root, actor, reason, now);
      DeliveriesKeptTrans(db, mid, db');
      PickedHead(rows, live);
      if rows[0] in live {
        CancelNotedStays(r, db, mid, db', rows[0], root, actor, reason, now);
        CancelledNamed(r, db, rows[0], reason, now);
        ListsMore(db', CancelledTask(r, TaskAt(db, rows[0]), reason, now),
                  CancelRows(mid, r, rows[1..], root, actor, reason, now).1, Picked(rows[1..], live));
      }
      AllNotedJoin(r, db, mid, db', rows, live, root, actor, reason, now);
    }
  }

  /** Exactly when a cancellation succeeds: when the task is there at the expected revision. */
  lemma CancelExactly(r: Redactor, db: Db, id: Id, expected: nat, actor: Name, reason: Name, now: int)
    ensures RequestCancel(db, r, id, expected, actor, reason, now).out.Ok? <==> id in db.tasks && db.tasks[id].revision == expected
  {
    hide CancelRows, Descendants;
  }

  lemma LiveAre(db: Db, rows: seq<Id>)
    requires AllPresent(db, rows)
    ensures LiveAmong(db, rows, Live(db, rows))
    ensures forall id :: id in Live(db, rows) ==> id in rows
  {}

  lemma CancelIsRows(db: Db, r: Redactor, id: Id, expected: nat, actor: Name, reason: Name, now: int)
    requires RequestCancel(db, r, id, expected, actor, reason, now).out.Ok?
    ensures AllPresent(db, Descendants(db, id))
    ensures var c := RequestCancel(db, r, id, expected, actor, reason, now);
      (c.db, c.out.value) == CancelRows(db, r, Descendants(db, id), id, actor, reason, now)
  {
    hide CancelRows, Descendants;
  }

  /** For every task of the subtree that had not ended, row, event and delivery say who
      cancelled it, why and below which task; no attempt is touched; and the call answers with
      these tasks as they are now stored, deepest first. */
  lemma CancelRecords(r: Redactor, db: Db, id: Id, expected: nat, actor: Name, reason: Name, now: int, below: Id)
    requires Good(r, db) && RequestCancel(db, r, id, expected, actor, reason, now).out.Ok?
    ensures var c, rows := RequestCancel(db, r, id, expected, actor, reason, now), Descendants(db, id);
      && c.db.attempts == db.attempts
      && (below in rows && below in db.tasks && !Terminal(db.tasks[below].status) ==>
            CancelNoted(r, db, c.db, below, id, actor, reason, now))
      && Lists(c.db, c.out.value, Picked(rows, Live(db, rows)))
  {
    var rows := Descendants(db, id);
    hide *;
    CancelIsRows(db, r, id, expected, actor, reason, now);
    IdsDistinct(r, db);
    DescendantsFacts(db, id);
    LiveAre(db, rows);
    CancelRowsNoted(r, db, rows, Live(db, rows), id, actor, reason, now);
    NotedOne(r, db, RequestCancel(db, r, id, expected, actor, reason, now).db, rows, Live(db, rows), id, actor, reason, now, below);
  }

  lemma NotedOne(r: Redactor, db: Db, db': Db, rows: seq<Id>, live: set<Id>, root: Id, actor: Name, reason: Name, now: int, id: Id)
    requires AllCancelNoted(r, db, db', rows, live, root, actor, reason, now) && LiveAmong(db, rows, live)
    ensures id in rows && id in db.tasks && !Terminal(db.tasks[id].status) ==> CancelNoted(r, db, db', id, root, actor, reason, now)
  {
    hide CancelNoted;
  }

  // ----- Recovering expired attempts -----

  /** What a recovery leaves of one expired task: it ended as UNKNOWN, on record, and its newest
      attempt closed with it. */
  ghost predicate RecoverNoted(r: Redactor, db: Db, db': Db, id: Id, actor: Name, now: int) {
    && id in db.tasks && id in db'.tasks
    && var was, u, key := TaskAt(db, id), db'.tasks[id].snapshot, (id, db.tasks[id].snapshot.attemptCount);
    && u.id == id && CreationPayload(u) == CreationPayload(was) && u.createdAt == was.createdAt
    && u.attemptCount == was.attemptCount && u.revision == was.revision + 1 && u.cancelRequested == was.cancelRequested
    && u.status == Unknown && u.reason == Some(r.text(LEASE_EXPIRED)) && u.updatedAt == now && u.completedAt == Some(now)
    && OnRecord(db', u, None, EventRow(Ended(Unknown), actor, None, now))
    && key in db.attempts && key in db'.attempts
    && var a, a' := db.attempts[key], db'.attempts[key];
    && a'.id == a.id && a'.token == a.token && a'.worker == a.worker
    && a'.status == Unknown && a'.result == u.result && a'.error == u.reason && a'.completedAt == Some(now)
  }

  lemma UnknownMeans(r: Redactor, db: Db, id: Id, now: int)
    requires Good(r, db) && HasStatus(db, id, Running) && id in db.tasks
    ensures var u, was := UnknownTask(db, r, id, now), TaskAt(db, id);
      && u.id == id && CreationPayload(u) == CreationPayload(was) && u.createdAt == was.createdAt
      && u.attemptCount == was.attemptCount && u.revision == was.revision + 1 && u.cancelRequested == was.cancelRequested
      && u.status == Unknown && u.reason == Some(r.text(LEASE_EXPIRED)) && u.updatedAt == now && u.completedAt == Some(now)
      && was.attemptCount == db.tasks[id].snapshot.attemptCount
  {
    hide Good, RedactPayload, RedactResultOption, LEASE_EXPIRED;
    RunningTask(r, db, id);
    RewrittenFacts(r, EndedAs(TaskAt(db, id), Unknown, LEASE_EXPIRED, now), now);
    hide Rewritten;
  }

  lemma UnknownNoted(r: Redactor, db: Db, id: Id, actor: Name, now: int)
    requires Good(r, db) && HasStatus(db, id, Running) && id in db.tasks
    requires LegalEnd(db, UnknownTask(db, r, id, now), actor, now) && EndAndSettle(db, UnknownTask(db, r, id, now), actor, now).Ok?
    ensures var after := EndAndSettle(db, UnknownTask(db, r, id, now), actor, now).value;
      && RecoverNoted(r, db, after, id, actor, now) && DeliveriesKept(db, after)
      && after.tasks[id].snapshot == UnknownTask(db, r, id, now)
  {
    hide Good, LegalEnd, EndAndSettle, UnknownTask, OnRecord, TaskAt, LEASE_EXPIRED, NoDuplicates;
    var u := UnknownTask(db, r, id, now);
    UnknownMeans(r, db, id, now);
    EndOnRecord(r, db, u, actor, now);
    EndCloses(r, db, u, actor, now);
    RecordRow(EndAndSettle(db, u, actor, now).value, u, None, EventRow(Ended(Unknown), actor, None, now));
    NewDeliveryKeeps(r, db, u, actor, now);
  }

  lemma NewDeliveryKeeps(r: Redactor, db: Db, t: ChildTask, actor: Name, now: int)
    requires Good(r, db) && LegalEnd(db, t, actor, now) && EndAndSettle(db, t, actor, now).Ok?
    ensures DeliveriesKept(db, EndAndSettle(db, t, actor, now).value)
  {
    hide *;
    LegalEndTerminal(db, t, actor, now);
    LegalEndRevision(db, t, actor, now);
    NextRevisionFree(r, db, t.id, t.revision);
    EndOnRecord(r, db, t, actor, now);
    OneMoreDelivery(db, EndAndSettle(db, t, actor, now).value, (t.id, t.revision),
                    DeliveryRow(DeliveryPending, None, None, None, 0, None, now, now, None));
  }

  lemma LegalEndRevision(db: Db, t: ChildTask, actor: Name, now: int)
    requires LegalEnd(db, t, actor, now)
    ensures t.id in db.tasks && t.revision == db.tasks[t.id].revision + 1
  {
    hide LegalStatus;
  }

  lemma OneMoreDelivery(db: Db, db': Db, key: TaskKey, d: DeliveryRow)
    requires key !in db.outbox && db'.outbox == db.outbox[key := d]
    ensures DeliveriesKept(db, db')
  {}

  lemma RecoverNotedStays(r: Redactor, db: Db, mid: Db, db': Db, id: Id, actor: Name, now: int)
    requires RecoverNoted(r, db, mid, id, actor, now)
    requires LaterTasks(mid, db') && LaterAttempts(mid, db') && DeliveriesKept(mid, db')
    requires id in mid.tasks && id in db'.tasks && db'.tasks[id] == mid.tasks[id]
    ensures RecoverNoted(r, db, db', id, actor, now)
  {
    hide OnRecord, LaterTasks, LaterAttempts, DeliveriesKept, TaskAt, LEASE_EXPIRED;
    RecordStays(mid, db', mid.tasks[id].snapshot, None, EventRow(Ended(Unknown), actor, None, now));
    AttemptsEndOnce(mid, db', (id, db.tasks[id].snapshot.attemptCount));
  }

  lemma RecoverNotedBefore(r: Redactor, db: Db, mid: Db, db': Db, id: Id, actor: Name, now: int)
    requires RecoverNoted(r, mid, db', id, actor, now) && LaterAttempts(db, mid) && Good(r, db)
    requires HasStatus(db, id, Running) && id in mid.tasks && mid.tasks[id] == db.tasks[id]
    ensures RecoverNoted(r, db, db', id, actor, now)
  {
    hide OnRecord, LEASE_EXPIRED, Good;
    RunningClaimed(r, db, id);
    NewestAttempt(r, db, id);
    var key := (id, db.tasks[id].snapshot.attemptCount);
    assert LaterAttempt(db.attempts[key], mid.attempts[key]);
    hide LaterAttempts;
  }

  ghost predicate AllRecoverNoted(r: Redactor, db: Db, db': Db, rows: seq<Id>, actor: Name, now: int) {
    forall id :: id in rows ==> RecoverNoted(r, db, db', id, actor, now)
  }

  lemma AllRecoverJoin(r: Redactor, db: Db, mid: Db, db': Db, rows: seq<Id>, actor: Name, now: int)
    requires Good(r, db) && rows != [] && AllRunning(db, rows) && NoDuplicates(rows)
    requires OnlyWaitersTouched(db, mid, rows[0]) && LaterAttempts(db, mid)
    requires AllRecoverNoted(r, mid, db', rows[1..], actor, now) && RecoverNoted(r, db, db', rows[0], actor, now)
    ensures AllRecoverNoted(r, db, db', rows, actor, now)
  {
    hide RecoverNoted, Good, LaterAttempts, NoDuplicates, AllRunning, OnlyWaitersTouched;
    forall id | id in rows ensures RecoverNoted(r, db, db', id, actor, now) {
      if id != rows[0] {
        assert id in rows[1..];
        StillAsFetched(db, mid, rows, id);
        RecoverNotedBefore(r, db, mid, db', id, actor, now);
      }
    }
  }

  lemma StillAsFetched(db: Db, mid: Db, rows: seq<Id>, id: Id)
    requires rows != [] && AllRunning(db, rows) && OnlyWaitersTouched(db, mid, rows[0]) && id in rows && id != rows[0]
    ensures HasStatus(db, id, Running) && id in mid.tasks && mid.tasks[id] == db.tasks[id]
  {
    assert HasStatus(db, id, Running);
    assert id in mid.tasks.Keys;
  }

  lemma RecoveredStays(db: Db, db': Db, rows: seq<Id>, id: Id)
    requires AllRecovered(db, db', Members(rows)) && id !in rows && id in db.tasks && Terminal(db.tasks[id].status)
    ensures id in db'.tasks && db'.tasks[id] == db.tasks[id]
  {
    assert id in db'.tasks.Keys;
  }

  lemma NothingRecovered(r: Redactor, db: Db, rows: seq<Id>, actor: Name, now: int)
    requires rows == [] && AllPresent(db, rows)
    ensures AllRecoverNoted(r, db, db, rows, actor, now)
    ensures Lists(db, [], rows)
  {}

  lemma ListHead(rows: seq<Id>)
    requires rows != []
    ensures rows == [rows[0]] + rows[1..]
  {}

  lemma RecordTerminal(r: Redactor, db: Db, db': Db, id: Id, actor: Name, now: int)
    requires RecoverNoted(r, db, db', id, actor, now)
    ensures id in db'.tasks && Terminal(db'.tasks[id].status) && db'.tasks[id].snapshot.id == id
  {}

  lemma {:induction false} RecoverRowsNoted(r: Redactor, db: Db, rows: seq<Id>, actor: Name, now: int)
    requires Good(r, db) && NoDuplicates(rows) && AllRunning(db, rows) && AllPresent(db, rows)
    requires RecoverRows(db, r, rows, actor, now).Ok?
    ensures var (db', answer) := RecoverRows(db, r, rows, actor, now).value;
      AllRecoverNoted(r, db, db', rows, actor, now) && Lists(db', answer, rows) && DeliveriesKept(db, db')
    decreases |rows|
  {
    hide *;
    var (db', answer) := RecoverRows(db, r, rows, actor, now).value;
    if rows == [] {
      RecoverNothing(db, r, rows, actor, now);
      NothingRecovered(r, db, rows, actor, now);
      DeliveriesReflexive(db);
    } else {
      FirstRuns(db, rows);
      RecoverRowsUnfold(db, r, rows, actor, now);
      RecoverStep(r, db, rows, actor, now);
      UnknownNoted(r, db, rows[0], actor, now);
      EndFootprint(r, db, UnknownTask(db, r, rows[0], now), actor, now);
      var after := EndAndSettle(db, UnknownTask(db, r, rows[0], now), actor, now).value;
      RecoverRowsNoted(r, after, rows[1..], actor, now);
      RecoverRowsSafe(r, after, rows[1..], actor, now);
      RecoverRowsShape(r, after, rows[1..], actor, now);
      SafeTasks(r, after, db');
      SafeLaterAttempts(r, after, db');
      SafeLaterAttempts(r, db, after);
      TailDistinct(rows);
      RecordTerminal(r, db, after, rows[0], actor, now);
      RecoveredStays(after, db', rows[1..], rows[0]);
      RecoverNotedStays(r, db, after, db', rows[0], actor, now);
      AllRecoverJoin(r, db, after, db', rows, actor, now);
      DeliveriesKeptTrans(db, after, db');
      ListHead(rows);
      ListsMore(db', UnknownTask(db, r, rows[0], now), RecoverRows(after, r, rows[1..], actor, now).value.1, rows[1..]);
    }
  }

  predicate Older(db: Db, a: Id, b: Id) {
    && a in db.tasks && b in db.tasks
    && (db.tasks[a].updatedAt < db.tasks[b].updatedAt
        || (db.tasks[a].updatedAt == db.tasks[b].updatedAt && TextLess(a, b)))
  }

  /** The row updated least recently comes first, and of two updated together the one with the
      lesser id. */
  ghost predicate OldestFirst(db: Db, rows: seq<Id>) {
    forall i, j :: 0 <= i < j < |rows| ==> Older(db, rows[i], rows[j])
  }

  lemma InOrderIsOldestFirst(db: Db, rows: seq<Id>)
    requires InOrder(UpdateTimes(db), rows)
    ensures OldestFirst(db, rows)
  {
    forall i, j | 0 <= i < j < |rows| ensures Older(db, rows[i], rows[j]) {
      assert rows[i] in UpdateTimes(db) && rows[j] in UpdateTimes(db);
      assert Precedes(UpdateTimes(db), rows[i], rows[j]);
    }
  }

  lemma ExpiredOldestFirst(r: Redactor, db: Db, now: int)
    requires Good(r, db)
    ensures OldestFirst(db, ExpiredRows(db, now))
  {
    IdsDistinct(r, db);
    PickedNoDuplicates(db.ids, ExpiredSet(db, now));
    SortedInOrder(UpdateTimes(db), Scan(db, ExpiredSet(db, now)));
    hide Good, NoDuplicates, Sorted, Scan, InOrder, OldestFirst;
    InOrderIsOldestFirst(db, ExpiredRows(db, now));
  }

  /** For every expired attempt, row, attempt, event and delivery say that its outcome is unknown
      and why; and the call answers with these tasks as they are now stored, the least recently
      updated first. */
  lemma RecoverRecords(r: Redactor, db: Db, actor: Name, now: int, id: Id)
    requires Good(r, db) && RecoverExpired(db, r, actor, now).out.Ok?
    ensures var e, rows := RecoverExpired(db, r, actor, now), ExpiredRows(db, now);
      && (id in ExpiredSet(db, now) ==> RecoverNoted(r, db, e.db, id, actor, now))
      && Lists(e.db, e.out.value, rows)
      && OldestFirst(db, rows) && NoDuplicates(rows) && forall k :: k in rows <==> k in ExpiredSet(db, now)
  {
    var rows := ExpiredRows(db, now);
    hide *;
    ExpiredListed(r, db, now);
    ExpiredOldestFirst(r, db, now);
    ExpiredRowsGood(r, db, now);
    RecoverUnfold(db, r, actor, now);
    RecoverRowsNoted(r, db, rows, actor, now);
    RecoverNotedOne(r, db, RecoverExpired(db, r, actor, now).db, rows, actor, now, id);
  }

  lemma RecoverNotedOne(r: Redactor, db: Db, db': Db, rows: seq<Id>, actor: Name, now: int, id: Id)
    requires AllRecoverNoted(r, db, db', rows, actor, now)
    ensures id in rows ==> RecoverNoted(r, db, db', id, actor, now)
  {
    hide RecoverNoted;
  }

  // ----- Waking dependents -----

  /** The event of a wake-up: who completed which dependency, when. */
  ghost predicate WakeNoted(db: Db, db': Db, id: Id, completed: Id, actor: Name, now: int) {
    && id in db.tasks && id in db'.tasks && db'.tasks[id].updatedAt == now
    && var key := (id, db.tasks[id].revision + 1);
    && key in db'.events && db'.events[key] == EventRow(MadeReady, actor, Some(completed), now)
  }

  lemma ReadyOneNoted(db: Db, id: Id, completed: Id, actor: Name, now: int)
    requires id in db.tasks && MarkReady(TaskAt(db, id)).Ok? && TaskAt(db, id).revision == db.tasks[id].revision
    ensures WakeNoted(db, ReadyOne(db, id, completed, actor, now), id, completed, actor, now)
  {}

  lemma WakeNotedStays(db: Db, mid: Db, db': Db, id: Id, completed: Id, actor: Name, now: int)
    requires WakeNoted(db, mid, id, completed, actor, now) && LaterTasks(mid, db') && id in db'.tasks && db'.tasks[id] == mid.tasks[id]
    ensures WakeNoted(db, db', id, completed, actor, now)
  {
    hide LaterRow;
  }

  ghost predicate AllWakeNoted(db: Db, db': Db, freed: set<Id>, completed: Id, actor: Name, now: int) {
    forall id :: id in freed ==> WakeNoted(db, db', id, completed, actor, now)
  }

  lemma WakeJoin(db: Db, mid: Db, db': Db, id: Id, freed: set<Id>, completed: Id, actor: Name, now: int)
    requires OthersKept(db, mid, {id}) && AllWakeNoted(mid, db', freed - {id}, completed, actor, now)
    requires WakeNoted(db, db', id, completed, actor, now)
    ensures AllWakeNoted(db, db', freed, completed, actor, now)
  {
    forall i | i in freed ensures WakeNoted(db, db', i, completed, actor, now) {
      if i != id {
        assert WakeNoted(mid, db', i, completed, actor, now);
        assert i in mid.tasks.Keys;
      }
    }
  }

  lemma NothingWoken(db: Db, db': Db, completed: Id, actor: Name, now: int)
    ensures AllWakeNoted(db, db', {}, completed, actor, now)
  {}

  lemma FreedAway(mid: Db, rows: seq<Id>, id: Id)
    requires AllPending(mid, rows) && id !in rows
    ensures id !in Freed(mid, rows)
  {
    hide DepsCompleted;
  }

  lemma {:induction false} ReadyRowsNoted(r: Redactor, db: Db, rows: seq<Id>, completed: Id, actor: Name, now: int)
    requires Good(r, db) && NoDuplicates(rows) && AllPending(db, rows)
    ensures var o := ReadyRows(db, rows, completed, actor, now);
      o.Ok? && AllWakeNoted(db, o.value, Freed(db, rows), completed, actor, now)
    decreases |rows|
  {
    hide *;
    ReadyRowsUnfold(db, rows, completed, actor, now);
    if rows == [] {
      NothingWoken(db, db, completed, actor, now);
    } else {
      var id := rows[0];
      PendingHead(db, rows);
      PendingPresent(db, rows);
      TailDistinct(rows);
      if !DepsCompleted(db, Deps(db, id)) {
        ReadyRowsNoted(r, db, rows[1..], completed, actor, now);
      } else {
        RunningTask(r, db, id);
        ReadyOneSafe(r, db, id, completed, actor, now);
        ReadyOneNoted(db, id, completed, actor, now);
        var mid := ReadyOne(db, id, completed, actor, now);
        SafeTasks(r, db, mid);
        SafeGood(r, db, mid);
        FreedAfter(db, mid, rows);
        PendingPresent(mid, rows[1..]);
        ReadyRowsNoted(r, mid, rows[1..], completed, actor, now);
        ReadyRowsSafe(r, mid, rows[1..], completed, actor, now);
        var db' := ReadyRows(mid, rows[1..], completed, actor, now).value;
        SafeTasks(r, mid, db');
        FreedAway(mid, rows[1..], id);
        OthersRow(mid, db', Freed(mid, rows[1..]), id);
        WakeNotedStays(db, mid, db', id, completed, actor, now);
        WakeJoin(db, mid, db', id, Freed(db, rows), completed, actor, now);
      }
    }
  }

  lemma FreedMember(db: Db, rows: seq<Id>, id: Id)
    requires AllPending(db, rows) && id in rows && DepsCompleted(db, Deps(db, id))
    ensures id in Freed(db, rows)
  {}

  lemma PendingDependent(r: Redactor, mid: Db, completed: Id, id: Id)
    requires Good(r, mid) && HasStatus(mid, id, Pending) && completed in Deps(mid, id)
    ensures var rows := Picked(Dependents(mid, completed), WithStatus(mid, {Pending}));
      id in rows && NoDuplicates(rows) && AllPending(mid, rows)
  {
    IdsFacts(mid);
    hide Good, NoDuplicates, Dependents;
    PendingRows(mid, completed);
    DependentsFacts(mid, completed);
  }

  /** When a task completes, every pending dependent with no dependency left becomes READY at
      once, with no reason to wait left, and an event that says after whom. */
  lemma SettleWakes(r: Redactor, mid: Db, completed: Id, actor: Name, now: int, id: Id)
    requires Good(r, mid) && HasStatus(mid, completed, Completed)
    requires HasStatus(mid, id, Pending) && completed in Deps(mid, id) && DepsCompleted(mid, Deps(mid, id))
    ensures Settle(mid, completed, actor, now).Ok?
    ensures var db' := Settle(mid, completed, actor, now).value;
      && WakeNoted(mid, db', id, completed, actor, now) && id in db'.tasks && NowReady(mid.tasks[id], db'.tasks[id])
  {
    var rows := Picked(Dependents(mid, completed), WithStatus(mid, {Pending}));
    assert Settle(mid, completed, actor, now) == ReadyRows(mid, rows, completed, actor, now) by { hide ReadyRows, Dependents; }
    PendingDependent(r, mid, completed, id);
    FreedMember(mid, rows, id);
    hide Good, Settle, ReadyRows, Freed, NowReady, WakeNoted, Dependents, DepsCompleted, AllPending, NoDuplicates, OthersKept;
    ReadyRowsNoted(r, mid, rows, completed, actor, now);
    ReadyRowsSafe(r, mid, rows, completed, actor, now);
  }

  predicate Born(db: Db, a: Id, b: Id) {
    && a in db.tasks && b in db.tasks
    && var x, y := db.tasks[a].snapshot.createdAt, db.tasks[b].snapshot.createdAt;
    x < y || (x == y && TextLess(a, b))
  }

  ghost predicate BornFirst(db: Db, rows: seq<Id>) {
    forall i, j :: 0 <= i < j < |rows| ==> Born(db, rows[i], rows[j])
  }

  lemma InOrderIsBornFirst(db: Db, rows: seq<Id>)
    requires InOrder(CreationTimes(db), rows)
    ensures BornFirst(db, rows)
  {
    forall i, j | 0 <= i < j < |rows| ensures Born(db, rows[i], rows[j]) {
      assert rows[i] in CreationTimes(db) && rows[j] in CreationTimes(db);
      assert Precedes(CreationTimes(db), rows[i], rows[j]);
    }
  }

  /** The cascades list each dependent of a task once, the one created first coming first, and
      of two created together the one with the lesser id. */
  lemma DependentsListed(r: Redactor, db: Db, id: Id)
    requires Good(r, db)
    ensures var rows := Dependents(db, id);
      && (forall d :: d in rows <==> d in db.tasks && id in Deps(db, d))
      && NoDuplicates(rows) && BornFirst(db, rows)
  {
    IdsFacts(db);
    DependentsFacts(db, id);
    PickedNoDuplicates(db.ids, DependentSet(db, id));
    SortedInOrder(CreationTimes(db), Scan(db, DependentSet(db, id)));
    hide Good, NoDuplicates, Sorted, Scan, InOrder, BornFirst;
    InOrderIsBornFirst(db, Dependents(db, id));
  }
}

/**
 The tables of the child-task store, for one profile.  A task row keeps both the
 columns and the stored snapshot.  Dependency rows are the snapshot's dependency
 list, and attempts, events and deliveries are keyed by the pair that is unique
 in their table.
 */
module Tables {
  import opened Basics
  import opened ChildModels

  /** The claim columns, which are set and cleared together. */
  datatype Claim = Claim(token: nat, worker: string, attemptId: nat, lease: int)

  /** `rowid` is the insertion position of the row. */
  datatype TaskRow = TaskRow(
    rowid: nat, status: Status, revision: nat, cancelRequested: bool,
    updatedAt: int, completedAt: Option<int>, claim: Option<Claim>, snapshot: ChildTask)
  {
    /** The task a reader sees: the snapshot with the columns laid over it. */
    function Task(): ChildTask {
      snapshot.(status := status, revision := revision, cancelRequested := cancelRequested,
                updatedAt := updatedAt, completedAt := completedAt)
    }
  }

  datatype AttemptRow = AttemptRow(
    id: nat, worker: string, token: nat, status: Status, lease: int,
    result: Option<TaskResult>, error: Option<string>,
    startedAt: int, updatedAt: int, completedAt: Option<int>)

  /** `Ended(s)` stands for the event a task writes when it enters terminal status `s`. */
  datatype EventKind =
    | Created | MadeReady | AttemptStarted | CancellationRequested
    | Retried | MadeBlocked | Ended(status: Status)

  /** `about` names the dependency or the cancelled root an event reports. */
  datatype EventRow = EventRow(kind: EventKind, actor: Name, about: Option<Id>, at: int)

  datatype DeliveryStatus =
    | DeliveryPending | DeliveryClaimed | DeliveryDelivered | DeliveryFailed | DeliveryUnknown

  datatype DeliveryRow = DeliveryRow(
    status: DeliveryStatus, token: Option<nat>, worker: Option<string>, lease: Option<int>,
    attempts: nat, error: Option<string>, createdAt: int, updatedAt: int, deliveredAt: Option<int>)

  type TaskKey = (Id, nat)

  /** `uuids` counts the unique identifiers handed out so far. */
  datatype Db = Db(
    ids: seq<Id>,
    tasks: map<Id, TaskRow>,
    creationKeys: map<string, Id>,
    attempts: map<TaskKey, AttemptRow>,
    events: map<TaskKey, EventRow>,
    sent: seq<TaskKey>,
    outbox: map<TaskKey, DeliveryRow>,
    uuids: nat)

  const EmptyDb := Db([], map[], map[], map[], map[], [], map[], 0)

  function Deps(db: Db, id: Id): seq<Id>
    requires id in db.tasks
  {
    db.tasks[id].snapshot.deps
  }

  function Parent(db: Db, id: Id): Option<Id>
    requires id in db.tasks
  {
    db.tasks[id].snapshot.lineage.parent
  }

  predicate HasStatus(db: Db, id: Id, s: Status) {
    id in db.tasks && db.tasks[id].status == s
  }

  predicate AllPresent(db: Db, rows: seq<Id>) {
    forall id :: id in rows ==> id in db.tasks
  }

  predicate DepsCompleted(db: Db, deps: seq<Id>) {
    forall d :: d in deps ==> HasStatus(db, d, Completed)
  }

  function ActiveChildren(db: Db, p: Id): set<Id> {
    set c | c in db.tasks && Parent(db, c) == Some(p) && db.tasks[c].status in {Running, Waiting}
  }

  // ----- Row writes -----

  function RowFor(row: TaskRow, t: ChildTask, claim: Option<Claim>): TaskRow {
    TaskRow(row.rowid, t.status, t.revision, t.cancelRequested, t.updatedAt, t.completedAt, claim, t)
  }

  function NewAttempt(claim: Claim, now: int): AttemptRow {
    AttemptRow(claim.attemptId, claim.worker, claim.token, Running, claim.lease, None, None, now, now, None)
  }

  function ClosedAttempt(a: AttemptRow, t: ChildTask, now: int): AttemptRow {
    a.(status := t.status, result := t.result, error := t.reason, updatedAt := now, completedAt := Some(now))
  }

  function NewDelivery(now: int): DeliveryRow {
    DeliveryRow(DeliveryPending, None, None, None, 0, None, now, now, None)
  }

  function AttemptsAfter(db: Db, row: TaskRow, t: ChildTask, claim: Option<Claim>, now: int): map<TaskKey, AttemptRow> {
    var key := (t.id, t.attemptCount);
    if row.status != Running && t.status == Running && claim.Some? then
      db.attempts[key := NewAttempt(claim.value, now)]
    else if row.status == Running && t.status != Running && key in db.attempts then
      db.attempts[key := ClosedAttempt(db.attempts[key], t, now)]
    else db.attempts
  }

  /**
   One row transition of one task, with everything it writes: the row and its
   event, the attempt it opens or closes, and the delivery it owes when the task
   enters a terminal status.
   */
  function Advance(db: Db, t: ChildTask, claim: Option<Claim>, event: EventRow): Db
    requires t.id in db.tasks
  {
    var row, key := db.tasks[t.id], (t.id, t.revision);
    db.(tasks := db.tasks[t.id := RowFor(row, t, claim)],
        attempts := AttemptsAfter(db, row, t, claim, event.at),
        events := db.events[key := event],
        sent := if Terminal(t.status) then db.sent + [key] else db.sent,
        outbox := if Terminal(t.status) then db.outbox[key := NewDelivery(event.at)] else db.outbox,
        uuids := if row.status != Running && t.status == Running then db.uuids + 2 else db.uuids)
  }

  function Insert(db: Db, t: ChildTask, key: Option<string>, event: EventRow): Db {
    db.(ids := db.ids + [t.id],
        tasks := db.tasks[t.id := TaskRow(|db.ids|, t.status, t.revision, t.cancelRequested,
                                          t.updatedAt, t.completedAt, None, t)],
        creationKeys := if key.Some? then db.creationKeys[key.value := t.id] else db.creationKeys,
        events := db.events[(t.id, 0) := event])
  }

  /** Extend the lease of the running attempt. */
  function Beat(db: Db, id: Id, lease: int, now: int): Db
    requires id in db.tasks && db.tasks[id].claim.Some?
  {
    var row := db.tasks[id];
    var key := (id, row.snapshot.attemptCount);
    db.(tasks := db.tasks[id := row.(updatedAt := now, claim := Some(row.claim.value.(lease := lease)))],
        attempts := if key in db.attempts
                    then db.attempts[key := db.attempts[key].(lease := lease, updatedAt := now)]
                    else db.attempts)
  }

  /** Rewrite one delivery row, using up `minted` new identifiers. */
  function PutDelivery(db: Db, key: TaskKey, d: DeliveryRow, minted: nat): Db {
    db.(outbox := db.outbox[key := d], uuids := db.uuids + minted)
  }

  // ----- Which row transitions the protocol makes -----

  /** A claim that starts an attempt: fresh identifiers, and room under the parent. */
  ghost predicate Startable(db: Db, id: Id, claim: Option<Claim>)
    requires id in db.tasks
  {
    && claim.Some? && claim.value.attemptId == db.uuids && claim.value.token == db.uuids + 1
    && (Parent(db, id).Some? && Parent(db, id).value in db.tasks ==>
          |ActiveChildren(db, Parent(db, id).value)| < db.tasks[Parent(db, id).value].snapshot.spec.maxParallelism)
  }

  ghost predicate LegalStatus(db: Db, t: ChildTask, claim: Option<Claim>)
    requires t.id in db.tasks
  {
    var row := db.tasks[t.id];
    match t.status
    case Ready =>
      row.status in {Pending, Failed, Blocked, BudgetExhausted, Unknown} && !t.cancelRequested && DepsCompleted(db, t.deps)
    case Pending => row.status in {Failed, Blocked, BudgetExhausted, Unknown} && !t.cancelRequested
    case Blocked =>
      row.status in {Pending, Ready, Failed, Blocked, BudgetExhausted, Unknown} && !t.cancelRequested
    case Running =>
      || (row.status == Ready && !t.cancelRequested && Startable(db, t.id, claim))
      || (row.status == Running && t.cancelRequested && claim == row.claim)
    case Completed => row.status == Running && !row.cancelRequested && !t.cancelRequested && t.result.Some?
    case Failed => row.status == Running && !row.cancelRequested && !t.cancelRequested
    case BudgetExhausted => row.status in {Running, Ready} && !row.cancelRequested && !t.cancelRequested
    case Cancelled =>
      t.cancelRequested && (row.status in {Pending, Ready, Blocked} || (row.status == Running && row.cancelRequested))
    case Unknown => row.status == Running && t.cancelRequested == row.cancelRequested
    case Waiting => false
  }

  ghost predicate Legal(db: Db, t: ChildTask, claim: Option<Claim>, event: EventRow) {
    && t.id in db.tasks
    && var row := db.tasks[t.id];
    && CreationPayload(t) == CreationPayload(row.snapshot)
    && t.createdAt == row.snapshot.createdAt
    && t.revision == row.revision + 1
    && (claim.Some? <==> t.status == Running)
    && t.attemptCount == row.snapshot.attemptCount + (if t.status == Running && row.status != Running then 1 else 0)
    && (Terminal(t.status) <==> t.completedAt.Some?)
    && (if Terminal(t.status) then event.kind == Ended(t.status) else !event.kind.Ended?)
    && LegalStatus(db, t, claim)
  }

  /** A row for a new task, as `create` inserts it. */
  ghost predicate Insertable(db: Db, t: ChildTask, key: Option<string>, event: EventRow) {
    && t.id !in db.tasks
    && t.revision == 0 && t.attemptCount == 0 && !t.cancelRequested && t.completedAt == None
    && t.status in {Pending, Ready, Blocked}
    && (t.status == Ready ==> DepsCompleted(db, t.deps))
    && (forall d :: d in t.deps ==> d in db.tasks)
    && NoDuplicates(t.deps)
    && (t.lineage.parent.Some? ==> t.lineage.parent.value in db.tasks)
    && event.kind == Created
    && (key.Some? ==> key.value !in db.creationKeys)
  }
}

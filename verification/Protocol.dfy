/**
 The transactions of the child-task store as functions on its tables.  Each
 returns the tables it leaves and its outcome; a transaction that raises leaves
 the tables as they were.
 */
module Protocol {
  import opened Basics
  import opened Redaction
  import opened ChildModels
  import opened Transitions
  import opened Tables
  import opened Listing
  import opened Cascade

  datatype Txn<+T> = Txn(db: Db, out: Outcome<T>)

  const MICROSECONDS := 1_000_000

  /** Leases are given in seconds; times count microseconds. */
  function LeaseUntil(now: int, seconds: int): int {
    now + seconds * MICROSECONDS
  }

  // ----- Reads -----

  function TaskAt(db: Db, id: Id): (t: ChildTask)
    requires id in db.tasks
    ensures t.id == id
  {
    db.tasks[id].Task().(id := id)
  }

  function WithStatus(db: Db, s: set<Status>): set<Id> {
    set id | id in db.tasks && db.tasks[id].status in s
  }

  /** The statuses a cascade turns into BLOCKED. */
  function Blockable(db: Db): set<Id> {
    WithStatus(db, {Pending, Ready, Waiting})
  }

  function CreationTimes(db: Db): map<Id, int> {
    map id | id in db.tasks :: db.tasks[id].snapshot.createdAt
  }

  function UpdateTimes(db: Db): map<Id, int> {
    map id | id in db.tasks :: db.tasks[id].updatedAt
  }

  /** The tasks of the table that are in `p`, in table order. */
  function Scan(db: Db, p: set<Id>): (r: seq<Id>)
    ensures forall id :: id in r <==> id in db.ids && id in p
  {
    Picked(db.ids, p)
  }

  function DependentSet(db: Db, id: Id): set<Id> {
    set d | d in db.tasks && id in Deps(db, d)
  }

  /** Every task that depends on `id`, oldest first. */
  function Dependents(db: Db, id: Id): seq<Id> {
    Sorted(CreationTimes(db), Scan(db, DependentSet(db, id)))
  }

  function DependentGraph(db: Db): Graph {
    map id | id in db.tasks :: Dependents(db, id)
  }

  /** Distances below `root` among the first `n` rows; a parent precedes its children. */
  function Distances(db: Db, root: Id, n: nat): (m: map<Id, int>)
    requires n <= |db.ids|
    ensures m.Keys <= db.tasks.Keys
  {
    if n == 0 then map[]
    else
      var m, id := Distances(db, root, n - 1), db.ids[n - 1];
      if id !in db.tasks then m
      else if id == root then m[id := 0]
      else if Parent(db, id).Some? && Parent(db, id).value in m then m[id := m[Parent(db, id).value] - 1]
      else m
  }

  /** The task and everything below it, deepest first. */
  function Descendants(db: Db, root: Id): (r: seq<Id>)
    ensures forall id :: id in r ==> id in db.tasks
  {
    var m := Distances(db, root, |db.ids|);
    Sorted(m, Scan(db, m.Keys))
  }

  function FirstMissing(db: Db, deps: seq<Id>): (m: Option<Id>)
    ensures m.None? <==> forall d :: d in deps ==> d in db.tasks
  {
    if deps == [] then None
    else if deps[0] !in db.tasks then Some(deps[0])
    else FirstMissing(db, deps[1..])
  }

  function CheckRevision(db: Db, id: Id, expected: nat): Outcome<ChildTask> {
    if id !in db.tasks then Err(NotFound(id))
    else if db.tasks[id].revision != expected then Err(RevisionConflict(id, expected, db.tasks[id].revision))
    else Ok(TaskAt(db, id))
  }

  function Next(t: ChildTask, now: int): ChildTask {
    WithRevision(t, t.revision + 1, now)
  }

  /** The snapshot written over an existing row; the id of a stored row is already redacted. */
  function Rewritten(r: Redactor, t: ChildTask, now: int): (u: ChildTask)
    ensures u.id == t.id && u.status == t.status && u.cancelRequested == t.cancelRequested && u.completedAt == t.completedAt
  {
    RedactTask(r, Next(t, now)).(id := t.id)
  }

  // ----- Ready and block cascades -----

  /** The statuses that keep a dependent from ever starting. */
  predicate Dead(s: Status) {
    s in {Failed, Cancelled, BudgetExhausted, Unknown}
  }

  function DeadDeps(db: Db, deps: seq<Id>): (r: seq<Id>)
    ensures forall d :: d in r <==> d in deps && d in db.tasks && Dead(db.tasks[d].status)
  {
    Picked(deps, set d | d in db.tasks && Dead(db.tasks[d].status))
  }

  function Joined(names: seq<string>): string {
    if names == [] then ""
    else if |names| == 1 then names[0]
    else names[0] + ", " + Joined(names[1..])
  }

  function OperatorReason(dead: seq<Id>): Name {
    "Dependencies require operator action: " + Joined(Sorted(map d | d in dead :: 0, dead))
  }

  /** The state a task starts in, given its dependencies. */
  function InitialState(db: Db, t: ChildTask): (o: Outcome<ChildTask>)
    ensures o.Ok? ==> o.value.id == t.id
  {
    if DepsCompleted(db, t.deps) then MarkReady(t)
    else if DeadDeps(db, t.deps) != [] then BlockTask(t, OperatorReason(DeadDeps(db, t.deps)))
    else Ok(t)
  }

  function ReadyRows(db: Db, rows: seq<Id>, completed: Id, actor: Name, now: int): Outcome<Db>
    requires AllPresent(db, rows)
    decreases |rows|
  {
    if rows == [] then Ok(db)
    else if !DepsCompleted(db, Deps(db, rows[0])) then ReadyRows(db, rows[1..], completed, actor, now)
    else
      match MarkReady(TaskAt(db, rows[0]))
      case Err(e) => Err(e)
      case Ok(t) =>
        ReadyRows(Advance(db, Next(t, now), None, EventRow(MadeReady, actor, Some(completed), now)),
                  rows[1..], completed, actor, now)
  }

  /** After `completed` completed: its PENDING dependents with no dependency left become READY. */
  function ReadyDependents(db: Db, completed: Id, actor: Name, now: int): Outcome<Db> {
    ReadyRows(db, Picked(Dependents(db, completed), WithStatus(db, {Pending})), completed, actor, now)
  }

  function BlockReason(cause: Id, s: Status): Name {
    "Dependency " + cause + " ended as " + StatusText(s) + "."
  }

  function BlockedFor(db: Db, cause: Id, id: Id, now: int): ChildTask
    requires id in db.tasks && cause in db.tasks
  {
    Next(TaskAt(db, id).(status := Blocked, reason := Some(BlockReason(cause, db.tasks[cause].status))), now)
  }

  /** Block each listed row for the task it is paired with, in order. */
  function BlockRows(db: Db, edges: seq<(Id, Id)>, actor: Name, now: int): (after: Db)
    ensures after.tasks.Keys == db.tasks.Keys
    decreases |edges|
  {
    if edges == [] then db
    else
      var (cause, id) := edges[0];
      if id !in db.tasks || cause !in db.tasks then db
      else
        BlockRows(Advance(db, BlockedFor(db, cause, id, now), None, EventRow(MadeBlocked, actor, Some(cause), now)),
                  edges[1..], actor, now)
  }

  /** The cascade from a task that ended without completing. */
  function BlockDependents(db: Db, ended: Id, actor: Name, now: int): (o: Outcome<Db>)
    ensures o.Ok? ==> o.value.tasks.Keys == db.tasks.Keys
  {
    match Walk(DependentGraph(db), ended, Blockable(db))
    case Conflict(at) =>
      if at in db.tasks then Err(RevisionConflict(at, db.tasks[at].revision, db.tasks[at].revision + 1))
      else Err(NotFound(at))
    case Done(edges, _) => Ok(BlockRows(db, edges, actor, now))
  }

  /** Follow a task that just ended: wake its dependents if it completed, block them if not. */
  function Settle(db: Db, id: Id, actor: Name, now: int): (o: Outcome<Db>)
    ensures o.Ok? && !HasStatus(db, id, Completed) ==> o.value.tasks.Keys == db.tasks.Keys
  {
    if HasStatus(db, id, Completed) then ReadyDependents(db, id, actor, now)
    else BlockDependents(db, id, actor, now)
  }

  /** Record that a task ended as `t`, then settle its dependents. */
  function EndAndSettle(db: Db, t: ChildTask, actor: Name, now: int): (o: Outcome<Db>)
    requires t.id in db.tasks
    ensures o.Ok? && t.status != Completed ==> o.value.tasks.Keys == db.tasks.Keys
  {
    Settle(Advance(db, t, None, EventRow(Ended(t.status), actor, None, now)), t.id, actor, now)
  }

  // ----- Creation -----

  function ValidateLineage(db: Db, t: ChildTask): Outcome<()> {
    match t.lineage.parent
    case None => if t.lineage.root in {None, Some(t.id)} then Ok(()) else Err(InvalidValue)
    case Some(p) =>
      if p !in db.tasks then Err(NotFound(p))
      else
        var parent := TaskAt(db, p);
        if Terminal(parent.status) || parent.cancelRequested then Err(InvalidValue)
        else if t.lineage.root != Some(if parent.lineage.root.Some? then parent.lineage.root.value else p) then Err(InvalidValue)
        else if t.lineage.depth != parent.lineage.depth + 1 then Err(InvalidValue)
        else if parent.spec.role != Orchestrator then Err(InvalidValue)
        else if t.lineage.depth > parent.spec.maxDepth || t.lineage.depth > t.spec.maxDepth then Err(InvalidValue)
        else Ok(())
  }

  function StoreNew(db: Db, r: Redactor, t: ChildTask, actor: Name, key: Option<string>): Txn<ChildTask> {
    var lineage := ValidateLineage(db, t);
    if lineage.Err? then Txn(db, Err(lineage.error))
    else if FirstMissing(db, t.deps).Some? then Txn(db, Err(NotFound(FirstMissing(db, t.deps).value)))
    else
      match InitialState(db, t)
      case Err(e) => Txn(db, Err(e))
      case Ok(initial) =>
        var stored := RedactTask(r, initial);
        if stored.id in db.tasks then Txn(db, Err(InvalidValue))
        else Txn(Insert(db, stored, key, EventRow(Created, actor, None, stored.createdAt)), Ok(stored))
  }

  function Create(db: Db, r: Redactor, t: ChildTask, actor: Name, key: Option<string>): Txn<ChildTask> {
    if t.revision != 0 || t.status != Pending then Txn(db, Err(InvalidValue))
    else if key.Some? && key.value in db.creationKeys then
      var id := db.creationKeys[key.value];
      if id !in db.tasks then Txn(db, Err(NotFound(id)))
      else if CreationPayload(TaskAt(db, id)) != CreationPayload(RedactTask(r, t)) then Txn(db, Err(WorkConflict))
      else Txn(db, Ok(TaskAt(db, id)))
    else StoreNew(db, r, t, actor, key)
  }

  // ----- Claiming -----

  const DEADLINE_REASON: Name := "Child task deadline" + " expired before execution."

  /** The first transaction of a claim: a READY task past its deadline ends. */
  function ExpireDeadline(db: Db, r: Redactor, id: Id, expected: nat, actor: Name, now: int): Txn<bool> {
    match CheckRevision(db, id, expected)
    case Err(e) => Txn(db, Err(e))
    case Ok(current) =>
      if current.spec.deadline.None? || now < current.spec.deadline.value then Txn(db, Ok(false))
      else if current.status != Ready then Txn(db, Ok(false))
      else
        var updated := Rewritten(r, EndedAs(current, BudgetExhausted, DEADLINE_REASON, now), now);
        match EndAndSettle(db, updated, actor, now)
        case Err(e) => Txn(db, Err(e))
        case Ok(after) => Txn(after, Ok(true))
  }

  function ParentHasRoom(db: Db, id: Id): Outcome<()>
    requires id in db.tasks
  {
    match Parent(db, id)
    case None => Ok(())
    case Some(p) =>
      if p !in db.tasks then Err(NotFound(p))
      else if |ActiveChildren(db, p)| >= db.tasks[p].snapshot.spec.maxParallelism then Err(LeaseConflict)
      else Ok(())
  }

  /** The second transaction of a claim: start the next attempt of a READY task. */
  function Start(db: Db, r: Redactor, id: Id, expected: nat, worker: Name, seconds: int, now: int): Txn<Ticket> {
    match CheckRevision(db, id, expected)
    case Err(e) => Txn(db, Err(e))
    case Ok(current) =>
      if FirstMissing(db, current.deps).Some? then Txn(db, Err(NotFound(FirstMissing(db, current.deps).value)))
      else if !DepsCompleted(db, current.deps) then Txn(db, Err(LeaseConflict))
      else if ParentHasRoom(db, id).Err? then Txn(db, Err(ParentHasRoom(db, id).error))
      else
        match StartAttempt(current)
        case Err(e) => Txn(db, Err(e))
        case Ok(started) =>
          var changed := Rewritten(r, started, now);
          var claim := Claim(db.uuids + 1, worker, db.uuids, LeaseUntil(now, seconds));
          Txn(Advance(db, changed, Some(claim), EventRow(AttemptStarted, worker, None, now)),
              Ok(Ticket(id, claim.attemptId, changed.attemptCount, worker, claim.token, claim.lease)))
  }

  // ----- Holding an attempt -----

  /** The row still carries exactly this ticket. */
  predicate Holds(db: Db, t: Ticket) {
    && t.taskId in db.tasks
    && var c := db.tasks[t.taskId].claim;
    && c.Some? && c.value.token == t.token && c.value.worker == t.worker && c.value.attemptId == t.attemptId
  }

  function AssertClaim(db: Db, t: Ticket, now: int, allowCancellation: bool): Outcome<ChildTask> {
    if t.taskId !in db.tasks then Err(NotFound(t.taskId))
    else if !Holds(db, t) then Err(LeaseConflict)
    else if db.tasks[t.taskId].claim.value.lease < now then Err(LeaseConflict)
    else if db.tasks[t.taskId].status != Running then Err(LeaseConflict)
    else if db.tasks[t.taskId].cancelRequested && !allowCancellation then Err(LeaseConflict)
    else Ok(TaskAt(db, t.taskId))
  }

  function Heartbeat(db: Db, t: Ticket, seconds: int, now: int): Txn<Ticket> {
    if seconds < 1 then Txn(db, Err(InvalidValue))
    else if !Holds(db, t) || db.tasks[t.taskId].status != Running || db.tasks[t.taskId].cancelRequested
            || db.tasks[t.taskId].claim.value.lease < now then Txn(db, Err(LeaseConflict))
    else
      var lease := LeaseUntil(now, seconds);
      Txn(Beat(db, t.taskId, lease, now), Ok(t.(lease := lease)))
  }

  // ----- Ending an attempt -----

  const CANCEL_OBSERVED: Name := "Cancellation was observed" + " after the active child attempt."

  function ReasonOr(reason: string, default: Name): Name {
    if |reason| == 0 then default else reason
  }

  /** The snapshot an attempt ends in; a requested cancellation wins over what the worker reports. */
  function EndState(r: Redactor, current: ChildTask, status: Status, result: Option<TaskResult>, reason: string, now: int)
    : (o: Outcome<ChildTask>)
    ensures o.Ok? ==> o.value.id == current.id
  {
    if current.cancelRequested then
      match CancelTask(current, CANCEL_OBSERVED, now)
      case Err(e) => Err(e)
      case Ok(t) => Ok(t.(result := RedactResultOption(r, result)))
    else if status == Completed then
      if result.None? then Err(InvalidValue)
      else CompleteTask(current, RedactResult(r, result.value), now)
    else if status == BudgetExhausted then ExhaustBudget(current, ReasonOr(reason, "Budget exhausted."), now)
    else FailTask(current, ReasonOr(reason, "Child execution failed."), now)
  }

  function Finish(db: Db, r: Redactor, t: Ticket, status: Status, result: Option<TaskResult>, reason: string, actor: Name, now: int)
    : Txn<ChildTask>
  {
    match AssertClaim(db, t, now, true)
    case Err(e) => Txn(db, Err(e))
    case Ok(current) =>
      match EndState(r, current, status, result, reason, now)
      case Err(e) => Txn(db, Err(e))
      case Ok(ended) =>
        var updated := Rewritten(r, ended, now);
        match EndAndSettle(db, updated, actor, now)
        case Err(e) => Txn(db, Err(e))
        case Ok(after) => Txn(after, Ok(updated))
  }

  // ----- Cancelling a subtree -----

  function CancelledTask(r: Redactor, current: ChildTask, reason: Name, now: int): (t: ChildTask)
    ensures t.id == current.id
  {
    var flagged := RequestCancellation(current);
    Rewritten(r, if current.status == Running then flagged
                 else EndedAs(flagged.(cancelRequested := true), Cancelled, reason, now), now)
  }

  function CancelEvent(t: ChildTask, root: Id, actor: Name, now: int): EventRow {
    EventRow(if Terminal(t.status) then Ended(Cancelled) else CancellationRequested, actor, Some(root), now)
  }

  function CancelRows(db: Db, r: Redactor, rows: seq<Id>, root: Id, actor: Name, reason: Name, now: int): (Db, seq<ChildTask>)
    requires AllPresent(db, rows)
    decreases |rows|
  {
    if rows == [] then (db, [])
    else
      var current := TaskAt(db, rows[0]);
      var updated := CancelledTask(r, current, reason, now);
      if Terminal(current.status) then CancelRows(db, r, rows[1..], root, actor, reason, now)
      else
        var claim := if Terminal(updated.status) then None else db.tasks[rows[0]].claim;
        var rest := CancelRows(Advance(db, updated, claim, CancelEvent(updated, root, actor, now)),
                               r, rows[1..], root, actor, reason, now);
        (rest.0, [updated] + rest.1)
  }

  function RequestCancel(db: Db, r: Redactor, id: Id, expected: nat, actor: Name, reason: Name, now: int): Txn<seq<ChildTask>> {
    match CheckRevision(db, id, expected)
    case Err(e) => Txn(db, Err(e))
    case Ok(_) =>
      var (after, changed) := CancelRows(db, r, Descendants(db, id), id, actor, reason, now);
      Txn(after, Ok(changed))
  }

  // ----- Retrying and recovering -----

  function Retry(db: Db, r: Redactor, id: Id, expected: nat, actor: Name, now: int): Txn<ChildTask> {
    match CheckRevision(db, id, expected)
    case Err(e) => Txn(db, Err(e))
    case Ok(current) =>
      match RetryTask(current)
      case Err(e) => Txn(db, Err(e))
      case Ok(pending) =>
        if FirstMissing(db, pending.deps).Some? then Txn(db, Err(NotFound(FirstMissing(db, pending.deps).value)))
        else
          match InitialState(db, pending)
          case Err(e) => Txn(db, Err(e))
          case Ok(initial) =>
            var updated := Rewritten(r, initial, now);
            Txn(Advance(db, updated, None, EventRow(Retried, actor, None, now)), Ok(updated))
  }

  const LEASE_EXPIRED: Name :=
    "Worker lease expired" + (" after execution started; the outcome" + " is unknown and will not be replayed.")

  function ExpiredSet(db: Db, now: int): set<Id> {
    set id | id in db.tasks && db.tasks[id].status == Running && db.tasks[id].claim.Some? && db.tasks[id].claim.value.lease < now
  }

  function RecoverRows(db: Db, r: Redactor, rows: seq<Id>, actor: Name, now: int): Outcome<(Db, seq<ChildTask>)>
    requires AllPresent(db, rows)
    decreases |rows|
  {
    if rows == [] then Ok((db, []))
    else
      match MarkUnknown(TaskAt(db, rows[0]), LEASE_EXPIRED, now)
      case Err(e) => Err(e)
      case Ok(ended) =>
        var updated := Rewritten(r, ended, now);
        match EndAndSettle(db, updated, actor, now)
        case Err(e) => Err(e)
        case Ok(after) =>
          match RecoverRows(after, r, rows[1..], actor, now)
          case Err(e) => Err(e)
          case Ok((last, changed)) => Ok((last, [updated] + changed))
  }

  /** Running tasks whose lease ran out end as UNKNOWN, least recently updated first. */
  function RecoverExpired(db: Db, r: Redactor, actor: Name, now: int): Txn<seq<ChildTask>> {
    match RecoverRows(db, r, Sorted(UpdateTimes(db), Scan(db, ExpiredSet(db, now))), actor, now)
    case Err(e) => Txn(db, Err(e))
    case Ok((after, changed)) => Txn(after, Ok(changed))
  }

  // ----- Delivering completions -----

  function LapsedDelivery(d: DeliveryRow, now: int): DeliveryRow {
    if d.status == DeliveryClaimed && d.lease.Some? && d.lease.value < now then
      d.(status := DeliveryUnknown, token := None, worker := None, lease := None,
         error := Some("delivery lease expired"), updatedAt := now)
    else d
  }

  function LapseDeliveries(db: Db, now: int): Db {
    db.(outbox := map k | k in db.outbox :: LapsedDelivery(db.outbox[k], now))
  }

  /** The oldest row that may be claimed, among the first `n`. */
  function OldestDue(db: Db, n: nat): (k: Option<TaskKey>)
    requires n <= |db.sent|
    ensures k.Some? ==> k.value in db.outbox && db.outbox[k.value].status in {DeliveryPending, DeliveryFailed, DeliveryUnknown}
  {
    if n == 0 then None
    else
      var best, k := OldestDue(db, n - 1), db.sent[n - 1];
      if k in db.outbox && db.outbox[k].status in {DeliveryPending, DeliveryFailed, DeliveryUnknown}
         && (best.None? || db.outbox[k].createdAt < db.outbox[best.value].createdAt)
      then Some(k) else best
  }

  /** What a worker holds for a claimed delivery. */
  datatype DeliveryTicket = DeliveryTicket(key: TaskKey, token: nat)

  function ClaimDelivery(db: Db, worker: Name, seconds: int, now: int): Txn<Option<DeliveryTicket>> {
    if seconds < 1 then Txn(db, Err(InvalidValue))
    else
      var lapsed := LapseDeliveries(db, now);
      match OldestDue(lapsed, |lapsed.sent|)
      case None => Txn(lapsed, Ok(None))
      case Some(k) =>
        var d := lapsed.outbox[k];
        Txn(PutDelivery(lapsed, k,
              d.(status := DeliveryClaimed, token := Some(db.uuids), worker := Some(worker),
                 lease := Some(LeaseUntil(now, seconds)), attempts := d.attempts + 1, updatedAt := now, error := None), 1),
            Ok(Some(DeliveryTicket(k, db.uuids))))
  }

  function FinishDelivery(db: Db, t: DeliveryTicket, delivered: bool, error: Option<string>, now: int): Txn<DeliveryRow> {
    if t.key !in db.outbox || db.outbox[t.key].status != DeliveryClaimed || db.outbox[t.key].token != Some(t.token)
       || db.outbox[t.key].lease.None? || db.outbox[t.key].lease.value < now
    then Txn(db, Err(DeliveryConflict))
    else
      var d := db.outbox[t.key].(
        status := if delivered then DeliveryDelivered else DeliveryFailed, token := None, worker := None, lease := None,
        error := error, deliveredAt := if delivered then Some(now) else None, updatedAt := now);
      Txn(PutDelivery(db, t.key, d, 0), Ok(d))
  }
}

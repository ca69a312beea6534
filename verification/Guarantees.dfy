/** What callers of the store can rely on, over every run. */
module Guarantees {
  import opened Basics
  import opened Redaction
  import opened ChildModels
  import opened Transitions
  import opened Tables
  import opened Protocol
  import opened Invariants
  import opened Growth
  import opened Steps
  import opened Transactions
  import opened Runs
  import opened Footprints

  // ----- Dependency order -----

  lemma DependencyMet(r: Redactor, db: Db, id: Id, d: Id)
    requires Good(r, db) && id in db.tasks && Started(db.tasks[id]) && d in Deps(db, id)
    ensures HasStatus(db, d, Completed) && db.tasks[d].snapshot.attemptCount > 0
  {
    GoodParts(r, db);
    assert DepsCompleted(db, Deps(db, id));
    hide Good, RowsAgree, Founded, DependencyOrder, AttemptsAgree, HistoryDense, OutboxAgrees, ParallelismBounded, Redacted;
    assert HasStatus(db, d, Completed);
    RowFacts(r, db, d);
  }

  function Attempts(db: Db, id: Id): nat {
    if id in db.tasks then db.tasks[id].snapshot.attemptCount else 0
  }

  lemma NewbornUntried(db: Db, db': Db, retried: Option<Id>, id: Id)
    requires Moves(db, db', retried)
    ensures id !in db.tasks ==> Attempts(db', id) == 0
  {}

  lemma NewAttemptWasReady(db: Db, db': Db, retried: Option<Id>, id: Id)
    requires Moves(db, db', retried) && Attempts(db', id) > Attempts(db, id)
    ensures HasStatus(db, id, Ready) && HasStatus(db', id, Running) && Attempts(db', id) == Attempts(db, id) + 1
  {
    NewbornUntried(db, db', retried, id);
  }

  lemma CompletedStays(db: Db, db': Db, d: Id)
    requires LaterTasks(db, db') && HasStatus(db, d, Completed)
    ensures HasStatus(db', d, Completed) && db'.tasks[d].revision == db.tasks[d].revision
    ensures db'.tasks[d].snapshot == db.tasks[d].snapshot
  {
    assert LaterRow(db.tasks[d], db'.tasks[d]);
  }

  lemma RunPrefix(r: Redactor, calls: seq<Call>, n: nat)
    requires Idempotent(r) && AllAdmissible(calls) && n <= |calls|
    ensures AllAdmissible(calls[..n])
    ensures Good(r, Run(r, EmptyDb, calls[..n]))
    ensures Safe(r, Run(r, EmptyDb, calls[..n]), Run(r, EmptyDb, calls))
  {
    assert Good(r, EmptyDb) by { EmptyInv(); }
    hide Good, Safe, Idempotent, Admissible, Run;
    assert calls == calls[..n] + calls[n..];
    assert AllAdmissible(calls[..n]) && AllAdmissible(calls[n..]);
    RunSafe(r, EmptyDb, calls[..n]);
    SafeGood(r, EmptyDb, Run(r, EmptyDb, calls[..n]));
    RunSplit(r, EmptyDb, calls[..n], calls[n..]);
    RunSafe(r, Run(r, EmptyDb, calls[..n]), calls[n..]);
  }

  lemma RunNext(r: Redactor, calls: seq<Call>, n: nat)
    requires n < |calls|
    ensures Run(r, EmptyDb, calls[..n + 1]) == Step(r, Run(r, EmptyDb, calls[..n]), calls[n])
  {
    hide Step;
    assert calls[..n + 1][..n] == calls[..n];
  }

  /** Whenever a run starts an attempt of a task, each of its dependencies had an
      attempt and has completed before, for good. */
  lemma AttemptsFollowDependencies(r: Redactor, calls: seq<Call>, n: nat, id: Id, d: Id)
    requires Idempotent(r) && AllAdmissible(calls) && n < |calls|
    requires Attempts(Run(r, EmptyDb, calls[..n + 1]), id) > Attempts(Run(r, EmptyDb, calls[..n]), id)
    requires id in Run(r, EmptyDb, calls[..n]).tasks && d in Deps(Run(r, EmptyDb, calls[..n]), id)
    ensures HasStatus(Run(r, EmptyDb, calls[..n]), d, Completed) && Attempts(Run(r, EmptyDb, calls[..n]), d) > 0
    ensures HasStatus(Run(r, EmptyDb, calls), d, Completed)
    ensures Run(r, EmptyDb, calls).tasks[d].revision == Run(r, EmptyDb, calls[..n]).tasks[d].revision
  {
    var before := Run(r, EmptyDb, calls[..n]);
    assert Admissible(calls[n]);
    hide Good, Safe, Idempotent, Admissible, AllAdmissible, Run, Step, Moves, LaterTasks;
    RunPrefix(r, calls, n);
    RunNext(r, calls, n);
    StepMoves(r, before, calls[n]);
    NewAttemptWasReady(before, Step(r, before, calls[n]), RetriedBy(calls[n]), id);
    DependencyMet(r, before, id, d);
    SafeTasks(r, before, Run(r, EmptyDb, calls));
    CompletedStays(before, Run(r, EmptyDb, calls), d);
  }

  lemma NoneMissing(db: Db, id: Id)
    requires id in db.tasks && DepsCompleted(db, Deps(db, id))
    ensures FirstMissing(db, Deps(db, id)).None?
  {
    assert forall d :: d in Deps(db, id) ==> HasStatus(db, d, Completed);
  }

  lemma StartChecks(r: Redactor, db: Db, id: Id, expected: nat, worker: Name, seconds: int, now: int)
    ensures Protocol.Start(db, r, id, expected, worker, seconds, now).out.Ok? <==>
      && HasStatus(db, id, Ready) && !db.tasks[id].cancelRequested && db.tasks[id].revision == expected
      && FirstMissing(db, Deps(db, id)).None? && DepsCompleted(db, Deps(db, id)) && ParentHasRoom(db, id).Ok?
  {
    hide DepsCompleted, FirstMissing, ParentHasRoom, Advance, Rewritten;
  }

  lemma ReadyIsFree(r: Redactor, db: Db, id: Id)
    requires Good(r, db) && HasStatus(db, id, Ready)
    ensures !db.tasks[id].cancelRequested && FirstMissing(db, Deps(db, id)).None? && DepsCompleted(db, Deps(db, id))
  {
    hide Good, RowsAgree, Founded, AttemptsAgree, HistoryDense, OutboxAgrees, ParallelismBounded, Redacted, FirstMissing, RowAgrees;
    GoodParts(r, db);
    RowFacts(r, db, id);
    assert Started(db.tasks[id]);
    NoneMissing(db, id);
  }

  /** The parent, if there is one, has fewer tasks running or waiting than it allows. */
  lemma RoomExactly(db: Db, id: Id)
    requires id in db.tasks
    ensures ParentHasRoom(db, id).Ok? <==>
      (Parent(db, id).Some? ==>
         var p := Parent(db, id).value;
         p in db.tasks && |ActiveChildren(db, p)| < db.tasks[p].snapshot.spec.maxParallelism)
  {
    hide ActiveChildren;
  }

  /** Exactly when an attempt starts: the task is READY at the expected revision and its parent,
      if it has one, has room.  The dependency check never decides. */
  lemma StartExactly(r: Redactor, db: Db, id: Id, expected: nat, worker: Name, seconds: int, now: int)
    requires Good(r, db)
    ensures Protocol.Start(db, r, id, expected, worker, seconds, now).out.Ok? <==>
      && HasStatus(db, id, Ready) && db.tasks[id].revision == expected
      && (Parent(db, id).Some? ==>
            var p := Parent(db, id).value;
            p in db.tasks && |ActiveChildren(db, p)| < db.tasks[p].snapshot.spec.maxParallelism)
  {
    assert HasStatus(db, id, Ready) ==> id in db.tasks;
    hide *;
    StartChecks(r, db, id, expected, worker, seconds, now);
    if HasStatus(db, id, Ready) {
      ReadyIsFree(r, db, id);
      RoomExactly(db, id);
    }
  }

  // ----- Fencing -----

  /** A ticket the store has handed out: its token is used up. */
  predicate Issued(db: Db, t: Ticket) {
    t.token < db.uuids
  }

  /** A ticket that is not held is never held again, so no heartbeat, boundary check or
      finish accepts it in any later state, whatever times are passed. */
  lemma LostStaysLost(r: Redactor, db: Db, db': Db, t: Ticket, seconds: int, now: int, allow: bool,
                      status: Status, result: Option<TaskResult>, reason: string, actor: Name)
    requires LaterAttempts(db, db') && LaterTasks(db, db') && Issued(db, t) && t.taskId in db.tasks && !Holds(db, t)
    ensures !Holds(db', t) && Issued(db', t)
    ensures Protocol.Heartbeat(db', t, seconds, now).out.Err?
    ensures AssertClaim(db', t, now, allow).Err?
    ensures Protocol.Finish(db', r, t, status, result, reason, actor, now).out.Err?
    ensures Protocol.Finish(db', r, t, status, result, reason, actor, now).db == db'
  {
    hide LaterTasks, EndState, EndAndSettle, Rewritten;
    assert t.taskId in db'.tasks && db'.tasks[t.taskId].claim.Some? ==>
      || db'.tasks[t.taskId].claim.value.token >= db.uuids
      || SameHolder(db.tasks[t.taskId].claim, db'.tasks[t.taskId].claim);
  }

  /** The ticket names attempt `t.number` of its task. */
  predicate Names(db: Db, t: Ticket) {
    && (t.taskId, t.number) in db.attempts
    && db.attempts[(t.taskId, t.number)].id == t.attemptId && db.attempts[(t.taskId, t.number)].token == t.token
  }

  /** A start hands out a held ticket for the attempt it opened. */
  lemma StartIssues(r: Redactor, db: Db, id: Id, expected: nat, worker: Name, seconds: int, now: int)
    requires Good(r, db) && Protocol.Start(db, r, id, expected, worker, seconds, now).out.Ok?
    ensures var s := Protocol.Start(db, r, id, expected, worker, seconds, now);
      && s.out.value.taskId == id && Holds(s.db, s.out.value) && Issued(s.db, s.out.value) && !Issued(db, s.out.value)
      && Names(s.db, s.out.value) && s.out.value.number == Attempts(db, id) + 1
  {
    hide Good, Protocol.Start, ParentHasRoom, DepsCompleted, RedactPayload, RowAgrees;
    StartUnfold(db, r, id, expected, worker, seconds, now);
    RowFacts(r, db, id);
    RewrittenFacts(r, TaskAt(db, id).(status := Running, attemptCount := TaskAt(db, id).attemptCount + 1, reason := None), now);
    hide Rewritten;
    var u := StartedTask(db, r, id, now);
    assert u.id == id && u.status == Running && u.attemptCount == Attempts(db, id) + 1;
    hide StartedTask;
  }

  /** Only the ticket of a task's newest attempt is ever held. */
  lemma OldAttemptNotHeld(db: Db, t: Ticket)
    requires AttemptsAgree(db) && Names(db, t) && t.taskId in db.tasks && Attempts(db, t.taskId) != t.number
    ensures !Holds(db, t)
  {
    var claim := db.tasks[t.taskId].claim;
    if claim.Some? {
      var newest := (t.taskId, Attempts(db, t.taskId));
      assert newest in db.attempts && AttemptMatches(db.attempts[newest], claim.value);
      assert newest != (t.taskId, t.number);
    }
  }

  /** An attempt that has ended keeps its outcome in every later state. */
  lemma AttemptsEndOnce(db: Db, db': Db, k: TaskKey)
    requires LaterAttempts(db, db') && k in db.attempts && db.attempts[k].status != Running
    ensures k in db'.attempts && db'.attempts[k] == db.attempts[k]
  {
    assert LaterAttempt(db.attempts[k], db'.attempts[k]);
  }

  /** At any instant a running attempt can be used by its owner or recovered, and never both. */
  lemma UsableOrRecoverable(r: Redactor, db: Db, t: Ticket, now: int)
    requires Good(r, db) && Holds(db, t)
    ensures AssertClaim(db, t, now, true).Ok? <==> t.taskId !in ExpiredSet(db, now)
  {
    hide Good;
    RowFacts(r, db, t.taskId);
  }

  // ----- Compare and swap -----

  /** The task a call moves by its expected revision, if it succeeds. */
  function Swapped(r: Redactor, db: Db, c: Call): Option<(Id, nat)> {
    match c
    case Expire(id, expected, actor, now) =>
      if ExpireDeadline(db, r, id, expected, actor, now).out == Ok(true) then Some((id, expected)) else None
    case Start(id, expected, worker, seconds, now) =>
      if Protocol.Start(db, r, id, expected, worker, seconds, now).out.Ok? then Some((id, expected)) else None
    case Cancel(id, expected, actor, reason, now) =>
      if RequestCancel(db, r, id, expected, actor, reason, now).out.Ok? && !Terminal(db.tasks[id].status)
      then Some((id, expected)) else None
    case Retry(id, expected, actor, now) =>
      if Protocol.Retry(db, r, id, expected, actor, now).out.Ok? then Some((id, expected)) else None
    case _ => None
  }

  lemma SwapExpire(r: Redactor, db: Db, id: Id, expected: nat, actor: Name, now: int)
    requires Good(r, db) && ExpireDeadline(db, r, id, expected, actor, now).out == Ok(true)
    ensures id in db.tasks && db.tasks[id].revision == expected
    ensures var after := ExpireDeadline(db, r, id, expected, actor, now).db;
      id in after.tasks && after.tasks[id].revision == expected + 1
  {
    hide Good, EndAndSettle, Rewritten, EndShape, ExpiredTask, DEADLINE_REASON;
    assert db.tasks[id].revision == expected;
    hide ExpireDeadline;
    ExpireShape(r, db, id, expected, actor, now);
    ShapeRow(db, ExpireDeadline(db, r, id, expected, actor, now).db, ExpiredTask(db, r, id, now));
  }

  lemma SwapStart(r: Redactor, db: Db, id: Id, expected: nat, worker: Name, seconds: int, now: int)
    requires Good(r, db) && Protocol.Start(db, r, id, expected, worker, seconds, now).out.Ok?
    ensures id in db.tasks && db.tasks[id].revision == expected
    ensures var after := Protocol.Start(db, r, id, expected, worker, seconds, now).db;
      id in after.tasks && after.tasks[id].revision == expected + 1
  {
    hide *;
    StartExactly(r, db, id, expected, worker, seconds, now);
    StartShape(r, db, id, expected, worker, seconds, now);
    OneMoveRow(db, Protocol.Start(db, r, id, expected, worker, seconds, now).db, StartedTask(db, r, id, now));
    EdgeRevision(db.tasks[id], Protocol.Start(db, r, id, expected, worker, seconds, now).db.tasks[id]);
  }

  lemma EdgeRevision(row: TaskRow, row': TaskRow)
    requires Edge(row, row') || RetryEdge(row, row')
    ensures row'.revision == row.revision + 1
  {}

  lemma SwapCancel(r: Redactor, db: Db, id: Id, expected: nat, actor: Name, reason: Name, now: int)
    requires Good(r, db) && RequestCancel(db, r, id, expected, actor, reason, now).out.Ok?
    ensures id in db.tasks && db.tasks[id].revision == expected
    ensures var after := RequestCancel(db, r, id, expected, actor, reason, now).db;
      id in after.tasks && after.tasks[id].revision == expected + (if Terminal(db.tasks[id].status) then 0 else 1)
  {
    hide Good, Safe, RequestCancel, Descendants, RowsAgree, Founded;
    RequestCancelSafe(r, db, id, expected, actor, reason, now);
    GoodParts(r, db);
    RootListed(r, db, id);
    var after := RequestCancel(db, r, id, expected, actor, reason, now).db;
    if Terminal(db.tasks[id].status) {
      assert id !in Live(db, Descendants(db, id));
      assert after.tasks[id] == db.tasks[id];
    } else {
      assert id in Live(db, Descendants(db, id));
      assert NowCancelled(db.tasks[id], after.tasks[id]);
    }
  }

  lemma {:induction false} RootFound(db: Db, root: Id, n: nat)
    requires n <= |db.ids| && root in db.tasks && root in db.ids[..n]
    ensures root in Distances(db, root, n)
  {
    if n > 0 && db.ids[n - 1] != root {
      assert db.ids[..n] == db.ids[..n - 1] + [db.ids[n - 1]];
      RootFound(db, root, n - 1);
    }
  }

  lemma RootListed(r: Redactor, db: Db, root: Id)
    requires Good(r, db) && root in db.tasks
    ensures root in Descendants(db, root)
  {
    hide *;
    IdsDistinct(r, db);
    RootInTable(r, db, root);
    RootFound(db, root, |db.ids|);
    DescendantsFacts(db, root);
  }

  lemma RootInTable(r: Redactor, db: Db, root: Id)
    requires Good(r, db) && root in db.tasks
    ensures root in db.ids[..|db.ids|]
  {
    hide Inv, Redacted;
    IdsFacts(db);
    assert db.ids[..|db.ids|] == db.ids;
  }

  lemma SwapRaisesRevision(r: Redactor, db: Db, c: Call)
    requires Good(r, db) && Swapped(r, db, c).Some?
    ensures var (id, expected) := Swapped(r, db, c).value;
      && id in db.tasks && db.tasks[id].revision == expected
      && id in Step(r, db, c).tasks && Step(r, db, c).tasks[id].revision == expected + 1
  {
    hide Good, ExpireDeadline, Protocol.Start, RequestCancel, Protocol.Retry, Edge, RetryEdge;
    match c
    case Expire(id, expected, actor, now) => SwapExpire(r, db, id, expected, actor, now);
    case Start(id, expected, worker, seconds, now) => SwapStart(r, db, id, expected, worker, seconds, now);
    case Cancel(id, expected, actor, reason, now) => SwapCancel(r, db, id, expected, actor, reason, now);
    case Retry(id, expected, actor, now) => SwapRetry(r, db, id, expected, actor, now);
    case _ =>
  }

  lemma SwapRetry(r: Redactor, db: Db, id: Id, expected: nat, actor: Name, now: int)
    requires Good(r, db) && Protocol.Retry(db, r, id, expected, actor, now).out.Ok?
    ensures id in db.tasks && db.tasks[id].revision == expected
    ensures var after := Protocol.Retry(db, r, id, expected, actor, now).db;
      id in after.tasks && after.tasks[id].revision == expected + 1
  {
    hide *;
    var t := Protocol.Retry(db, r, id, expected, actor, now);
    RetryUnfold(db, r, id, expected, actor, now);
    RetryShape(r, db, id, expected, actor, now);
    OneMoveRow(db, t.db, t.out.value);
    EdgeRevision(db.tasks[id], t.db.tasks[id]);
  }

  lemma RevisionsRise(db: Db, db': Db, id: Id)
    requires LaterTasks(db, db') && id in db.tasks
    ensures id in db'.tasks && db'.tasks[id].revision >= db.tasks[id].revision
  {
    assert LaterRow(db.tasks[id], db'.tasks[id]);
  }

  /** Of all the calls of a run that name one task at one revision, at most one succeeds. */
  lemma AtMostOneSwap(r: Redactor, calls: seq<Call>, i: nat, j: nat)
    requires Idempotent(r) && AllAdmissible(calls) && i < j < |calls|
    requires Swapped(r, Run(r, EmptyDb, calls[..i]), calls[i]).Some?
    ensures Swapped(r, Run(r, EmptyDb, calls[..j]), calls[j]) != Swapped(r, Run(r, EmptyDb, calls[..i]), calls[i])
  {
    hide *;
    var di, dj := Run(r, EmptyDb, calls[..i]), Run(r, EmptyDb, calls[..j]);
    RunPrefix(r, calls, i);
    RunPrefix(r, calls, j);
    RunNext(r, calls, i);
    assert calls[..j][..i + 1] == calls[..i + 1];
    RunPrefix(r, calls[..j], i + 1);
    SafeTasks(r, Run(r, EmptyDb, calls[..i + 1]), dj);
    SwapRaisesRevision(r, di, calls[i]);
    var (id, expected) := Swapped(r, di, calls[i]).value;
    RevisionsRise(Run(r, EmptyDb, calls[..i + 1]), dj, id);
    if Swapped(r, dj, calls[j]) == Swapped(r, di, calls[i]) { SwapRaisesRevision(r, dj, calls[j]); }
  }

  // ----- Every reachable state -----

  lemma EventsOf(db: Db, id: Id, n: nat)
    requires HistoryDense(db) && id in db.tasks
    ensures (id, n) in db.events <==> n <= db.tasks[id].revision
  {}

  lemma AttemptsOf(db: Db, id: Id, n: nat)
    requires AttemptsAgree(db) && id in db.tasks
    ensures (id, n) in db.attempts <==> 1 <= n <= db.tasks[id].snapshot.attemptCount
    ensures (id, n) in db.attempts ==>
      (db.attempts[(id, n)].status == Running <==> db.tasks[id].status == Running && n == db.tasks[id].snapshot.attemptCount)
    ensures db.tasks[id].claim.Some? ==>
      var key := (id, db.tasks[id].snapshot.attemptCount);
      key in db.attempts && AttemptMatches(db.attempts[key], db.tasks[id].claim.value)
  {}

  lemma ChildrenOf(db: Db, id: Id)
    requires ParallelismBounded(db) && id in db.tasks
    ensures |ActiveChildren(db, id)| <= db.tasks[id].snapshot.spec.maxParallelism
  {}

  /** Any task in any reachable state: the columns agree with the snapshot; there is one event
      for each revision and none beyond; attempts are numbered 1 to the attempt count; the
      task is RUNNING exactly while it is claimed, and then its newest attempt, and no other,
      runs under the same identifiers and lease; it is never WAITING; no more of its children
      are active than it allows; and once it got past its dependencies they have completed. */
  lemma ReachableTask(r: Redactor, db: Db, id: Id, n: nat)
    requires Idempotent(r) && Reachable(r, db) && id in db.tasks
    ensures var row := db.tasks[id];
      && row.snapshot.status == row.status && row.snapshot.revision == row.revision
      && row.snapshot.cancelRequested == row.cancelRequested && row.snapshot.completedAt == row.completedAt
      && ((id, n) in db.events <==> n <= row.revision)
      && ((id, n) in db.attempts <==> 1 <= n <= row.snapshot.attemptCount)
      && ((id, n) in db.attempts ==>
            (db.attempts[(id, n)].status == Running <==> row.status == Running && n == row.snapshot.attemptCount))
      && (row.claim.Some? <==> row.status == Running)
      && (row.claim.Some? ==>
            var key := (id, row.snapshot.attemptCount);
            key in db.attempts && AttemptMatches(db.attempts[key], row.claim.value))
      && row.status != Waiting
      && |ActiveChildren(db, id)| <= row.snapshot.spec.maxParallelism
      && (Started(row) ==> DepsCompleted(db, Deps(db, id)))
  {
    ReachableGood(r, db);
    GoodParts(r, db);
    assert Started(db.tasks[id]) ==> DepsCompleted(db, Deps(db, id));
    hide Reachable, Good, RowsAgree, Founded, DependencyOrder, AttemptsAgree, HistoryDense, OutboxAgrees, ParallelismBounded, Redacted;
    hide Idempotent, DepsCompleted, ActiveChildren, AttemptMatches, Started;
    RowFacts(r, db, id);
    EventsOf(db, id, n);
    AttemptsOf(db, id, n);
    ChildrenOf(db, id);
  }

  /** Revisions never skip: a step raises a task's revision by at most one, and a change of
      its status, flag, snapshot or claim holder always raises it. */
  lemma RevisionsRiseByOne(r: Redactor, db: Db, c: Call, id: Id)
    requires Idempotent(r) && Good(r, db) && Admissible(c) && id in db.tasks
    ensures id in Step(r, db, c).tasks
    ensures var row, row' := db.tasks[id], Step(r, db, c).tasks[id];
      && row.revision <= row'.revision <= row.revision + 1
      && (row'.revision == row.revision ==>
            && row'.status == row.status && row'.cancelRequested == row.cancelRequested && row'.snapshot == row.snapshot)
  {
    hide Good, Idempotent, Admissible, Step, Edge, RetryEdge;
    StepMoves(r, db, c);
    MovedOnce(db, Step(r, db, c), RetriedBy(c), id);
  }

  lemma MovedOnce(db: Db, db': Db, retried: Option<Id>, id: Id)
    requires Moves(db, db', retried) && id in db.tasks
    ensures id in db'.tasks
    ensures var row, row' := db.tasks[id], db'.tasks[id];
      && row.revision <= row'.revision <= row.revision + 1
      && (row'.revision == row.revision ==>
            && row'.status == row.status && row'.cancelRequested == row.cancelRequested && row'.snapshot == row.snapshot)
  {
    assert id in db'.tasks.Keys;
  }

  /** A ticket whose task has begun a later attempt is refused in every later state, by every
      call, at any time. */
  lemma OlderAttemptRefused(r: Redactor, db: Db, db': Db, t: Ticket, seconds: int, now: int, allow: bool,
                            status: Status, result: Option<TaskResult>, reason: string, actor: Name)
    requires Idempotent(r) && Good(r, db) && LeadsTo(r, db, db')
    requires Issued(db, t) && Names(db, t) && t.taskId in db.tasks && Attempts(db, t.taskId) != t.number
    ensures !Holds(db', t) && AssertClaim(db', t, now, allow).Err?
    ensures Protocol.Heartbeat(db', t, seconds, now).out.Err?
    ensures Protocol.Finish(db', r, t, status, result, reason, actor, now).out.Err?
  {
    hide *;
    GoodParts(r, db);
    OldAttemptNotHeld(db, t);
    LeadsToSafe(r, db, db');
    LaterParts(db, db');
    LostStaysLost(r, db, db', t, seconds, now, allow, status, result, reason, actor);
  }

  lemma LaterParts(db: Db, db': Db)
    requires Later(db, db')
    ensures LaterTasks(db, db') && LaterAttempts(db, db') && LaterOutbox(db, db')
  {
    hide LaterTasks, LaterAttempts, LaterOutbox;
  }

  // ----- Secrets -----

  lemma MaskedFixpoint(r: Redactor, v: Json)
    requires Idempotent(r) && RedactData(r, v) == v
    ensures Masked(r, v)
  {
    hide *;
    RedactDataExactly(r, v);
    RedactedIsMasked(r, v, v);
  }

  lemma PayloadFixpoint(r: Redactor, p: Payload)
    requires RedactPayload(r, p) == p
    ensures RedactData(r, p.spec.package) == p.spec.package && RedactData(r, p.links) == p.links
    ensures r.text(p.id) == p.id && r.text(p.spec.backend) == p.spec.backend
  {
    hide RedactData, RedactNames;
  }

  /** In every reachable state no secret is stored in what a task was created with. */
  lemma NoSecretStored(r: Redactor, db: Db, id: Id)
    requires Idempotent(r) && Reachable(r, db) && id in db.tasks
    ensures var t := db.tasks[id].snapshot;
      Masked(r, t.spec.package) && Masked(r, t.links) && r.text(t.id) == t.id && r.text(t.spec.backend) == t.spec.backend
  {
    ReachableGood(r, db);
    hide Good, Idempotent, Reachable, RowAgrees, FlagAgrees, RedactPayload, Masked;
    RowFacts(r, db, id);
    PayloadFixpoint(r, CreationPayload(db.tasks[id].snapshot));
    MaskedFixpoint(r, db.tasks[id].snapshot.spec.package);
    MaskedFixpoint(r, db.tasks[id].snapshot.links);
  }
}

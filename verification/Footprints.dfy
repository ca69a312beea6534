/** Which rows each transaction moves, and from which status to which. */
module Footprints {
  import opened Basics
  import opened Redaction
  import opened ChildModels
  import opened Transitions
  import opened Tables
  import opened Listing
  import opened Cascade
  import opened Protocol
  import opened Invariants
  import opened Growth
  import opened Steps
  import opened Transactions
  import opened Runs

  /** One move of a task, other than a retry, seen on its row. */
  predicate Edge(row: TaskRow, row': TaskRow) {
    && row'.revision == row.revision + 1
    && row'.snapshot.attemptCount == row.snapshot.attemptCount + (if row.status == Ready && row'.status == Running then 1 else 0)
    && match row.status
       case Pending => row'.status in {Ready, Blocked, Cancelled}
       case Ready => row'.status in {Running, BudgetExhausted, Blocked, Cancelled}
       case Running =>
         if row'.cancelRequested
         then row'.status in {Running, Cancelled} || (row'.status == Unknown && row.cancelRequested)
         else !row.cancelRequested && row'.status in {Completed, Failed, BudgetExhausted, Unknown}
       case Blocked => row'.status == Cancelled
       case _ => false
  }

  predicate RetryEdge(row: TaskRow, row': TaskRow) {
    && row'.revision == row.revision + 1 && row'.snapshot.attemptCount == row.snapshot.attemptCount
    && row.status in {Failed, Blocked, BudgetExhausted, Unknown}
    && row'.status in {Ready, Pending, Blocked} && !row'.cancelRequested
  }

  /** A heartbeat moves the lease and nothing a caller can wait for. */
  predicate Beaten(row: TaskRow, row': TaskRow) {
    row.status == Running && !row.cancelRequested && row' == row.(updatedAt := row'.updatedAt, claim := row'.claim)
  }

  predicate Moved(row: TaskRow, row': TaskRow) {
    row' == row || Edge(row, row') || Beaten(row, row')
  }

  /** A task that can take children: it has not ended and is not being cancelled. */
  predicate TakesChildren(db: Db, p: Id) {
    p in db.tasks && !Terminal(db.tasks[p].status) && !db.tasks[p].cancelRequested
  }

  /** A row inserted by the step. */
  predicate Newborn(db: Db, row: TaskRow) {
    && row.revision == 0 && row.snapshot.attemptCount == 0
    && (row.snapshot.lineage.parent.Some? ==> TakesChildren(db, row.snapshot.lineage.parent.value))
  }

  /** The moves of a step: every row moves at most once, and only a retried task retries. */
  ghost predicate Moves(db: Db, db': Db, retried: Option<Id>) {
    && db.tasks.Keys <= db'.tasks.Keys
    && (forall id :: id in db.tasks ==>
          || Moved(db.tasks[id], db'.tasks[id])
          || (retried == Some(id) && RetryEdge(db.tasks[id], db'.tasks[id])))
    && (forall id :: id in db'.tasks && id !in db.tasks ==> Newborn(db, db'.tasks[id]))
  }

  lemma MovesRefl(db: Db)
    ensures Moves(db, db, None)
  {}

  // ----- A task that ends -----

  /** What an end does to the tasks that did not end. */
  predicate FollowedBy(row: TaskRow, row': TaskRow, t: ChildTask) {
    || row' == row
    || (row'.revision == row.revision + 1 && !row'.cancelRequested && row'.snapshot.attemptCount == row.snapshot.attemptCount
        && if t.status == Completed then row.status == Pending && row'.status == Ready
           else row.status in {Pending, Ready} && row'.status == Blocked)
  }

  /** Nothing that waits for the ended task is forgotten. */
  ghost predicate NoneForgotten(db': Db, t: ChildTask) {
    forall id :: id in db'.tasks && t.id in Deps(db', id) ==>
      if t.status == Completed then db'.tasks[id].status == Pending ==> !DepsCompleted(db', Deps(db', id))
      else db'.tasks[id].status !in {Pending, Ready, Waiting}
  }

  ghost predicate EndShape(db: Db, db': Db, t: ChildTask) {
    && db'.ids == db.ids && db'.tasks.Keys == db.tasks.Keys && t.id in db.tasks
    && db'.tasks[t.id].status == t.status && db'.tasks[t.id].revision == t.revision
    && db'.tasks[t.id].cancelRequested == t.cancelRequested && db'.tasks[t.id].snapshot == t
    && (forall id :: id in db.tasks && id != t.id ==> FollowedBy(db.tasks[id], db'.tasks[id], t))
    && (forall id :: id in db.tasks ==> Deps(db', id) == Deps(db, id))
    && NoneForgotten(db', t)
  }

  ghost predicate AllSettled(mid: Db, db': Db, t: ChildTask) {
    forall id :: id in Settled(mid, t) ==> id in mid.tasks && id in db'.tasks && SettledRow(mid.tasks[id], db'.tasks[id], t)
  }

  /** The rows a settled end moves were waiting to start. */
  lemma SettledFollow(r: Redactor, mid: Db, db': Db, t: ChildTask)
    requires Good(r, mid) && Good(r, db') && OthersKept(mid, db', Settled(mid, t)) && AllSettled(mid, db', t)
    ensures AllFollow(mid, db', t)
  {
    hide Good, Settled, AllSettled, RowAgrees;
    SettledWaits(mid, t);
    forall id | id in mid.tasks ensures id in db'.tasks && FollowedBy(mid.tasks[id], db'.tasks[id], t) {
      assert id in db'.tasks.Keys;
      RowFacts(r, mid, id);
      RowFacts(r, db', id);
      if id in Settled(mid, t) { SettledAt(mid, db', t, id); }
    }
  }

  lemma SettledAt(mid: Db, db': Db, t: ChildTask, id: Id)
    requires AllSettled(mid, db', t) && id in Settled(mid, t)
    ensures id in mid.tasks && id in db'.tasks && SettledRow(mid.tasks[id], db'.tasks[id], t)
  {}

  lemma {:induction false} DirectlyReached(mid: Db, t: ChildTask, id: Id)
    requires NoDuplicates(mid.ids) && forall i :: i in mid.tasks ==> i in mid.ids
    requires t.id in mid.tasks && id in DependentSet(mid, t.id) && id in Blockable(mid)
    ensures id in Reached(mid, t.id)
  {
    hide NoDuplicates, Blockable, DependentSet;
    GraphFacts(mid);
    hide DependentGraph;
    assert id in Rows(DependentGraph(mid), t.id);
    ReachesStep(DependentGraph(mid), Blockable(mid), t.id, id);
  }

  lemma PendingDependentWaits(mid: Db, db': Db, t: ChildTask, id: Id)
    requires NoDuplicates(mid.ids) && forall i :: i in mid.tasks ==> i in mid.ids
    requires t.status == Completed && id in mid.tasks && id in db'.tasks && t.id in Deps(mid, id)
    requires OthersKept(mid, db', Settled(mid, t)) && AllSettled(mid, db', t)
    requires db'.tasks[id].status == Pending
    ensures !DepsCompleted(mid, Deps(mid, id))
  {
    PendingRows(mid, t.id);
    hide Dependents, NoDuplicates, DepsCompleted, AllSettled;
    if id in Settled(mid, t) {
      SettledAt(mid, db', t, id);
    } else {
      assert id in DependentSet(mid, t.id);
    }
  }

  lemma CompletedForgetsNone(r: Redactor, mid: Db, db': Db, t: ChildTask)
    requires Good(r, mid) && t.status == Completed && t.id in mid.tasks
    requires LaterTasks(mid, db') && OthersKept(mid, db', Settled(mid, t)) && AllSettled(mid, db', t)
    ensures NoneForgotten(db', t)
  {
    IdsFacts(mid);
    LaterDeps(mid, db');
    CompletedSame(mid, db', t);
    assert db'.tasks.Keys == mid.tasks.Keys;
    hide Good, LaterTasks, Settled, OthersKept, AllSettled, NoDuplicates, DepsCompleted;
    forall id | id in db'.tasks && t.id in Deps(db', id) && db'.tasks[id].status == Pending
      ensures !DepsCompleted(db', Deps(db', id))
    {
      assert id in mid.tasks.Keys;
      PendingDependentWaits(mid, db', t, id);
    }
  }

  lemma CompletedSame(mid: Db, db': Db, t: ChildTask)
    requires t.status == Completed
    requires OthersKept(mid, db', Settled(mid, t)) && AllSettled(mid, db', t)
    ensures forall deps :: DepsCompleted(db', deps) <==> DepsCompleted(mid, deps)
  {
    hide Settled;
    forall d ensures HasStatus(db', d, Completed) <==> HasStatus(mid, d, Completed) {
      assert d in mid.tasks.Keys <==> d in db'.tasks.Keys;
      if d in Settled(mid, t) { SettledAt(mid, db', t, d); }
    }
  }

  /** A dependent of a task that ended without completing is not left waiting. */
  lemma DependentMoved(mid: Db, db': Db, t: ChildTask, id: Id)
    requires NoDuplicates(mid.ids) && forall i :: i in mid.tasks ==> i in mid.ids
    requires t.status != Completed && t.id in mid.tasks && id in mid.tasks && id in db'.tasks && t.id in Deps(mid, id)
    requires OthersKept(mid, db', Settled(mid, t)) && AllSettled(mid, db', t)
    ensures db'.tasks[id].status !in {Pending, Ready, Waiting}
  {
    hide NoDuplicates, Reached, AllSettled;
    if id in Settled(mid, t) {
      SettledAt(mid, db', t, id);
    } else if id in Blockable(mid) {
      DirectlyReached(mid, t, id);
    }
  }

  lemma EndedForgetsNone(r: Redactor, mid: Db, db': Db, t: ChildTask)
    requires Good(r, mid) && t.status != Completed && t.id in mid.tasks
    requires LaterTasks(mid, db') && OthersKept(mid, db', Settled(mid, t)) && AllSettled(mid, db', t)
    ensures NoneForgotten(db', t)
  {
    IdsFacts(mid);
    LaterDeps(mid, db');
    assert db'.tasks.Keys == mid.tasks.Keys;
    hide Good, LaterTasks, Settled, OthersKept, AllSettled, NoDuplicates;
    forall id | id in db'.tasks && t.id in Deps(db', id)
      ensures db'.tasks[id].status !in {Pending, Ready, Waiting}
    {
      assert id in mid.tasks.Keys;
      DependentMoved(mid, db', t, id);
    }
  }

  lemma LaterDeps(db: Db, db': Db)
    requires LaterTasks(db, db')
    ensures forall id :: id in db.tasks ==> id in db'.tasks && Deps(db', id) == Deps(db, id) && Parent(db', id) == Parent(db, id)
  {
    forall id | id in db.tasks
      ensures id in db'.tasks && Deps(db', id) == Deps(db, id) && Parent(db', id) == Parent(db, id)
    {
      assert LaterRow(db.tasks[id], db'.tasks[id]);
    }
  }

  /** `mid` is `db` with the row of `t` rewritten. */
  ghost predicate RowWritten(db: Db, mid: Db, t: ChildTask) {
    && OthersKept(db, mid, {t.id}) && t.id in db.tasks && t.id in mid.tasks
    && mid.tasks[t.id] == RowFor(db.tasks[t.id], t, None) && Terminal(t.status)
  }

  lemma AfterEndWritten(db: Db, t: ChildTask, actor: Name, now: int)
    requires t.id in db.tasks && Terminal(t.status)
    ensures RowWritten(db, AfterEnd(db, t, actor, now), t)
  {}

  ghost predicate AllFollow(mid: Db, db': Db, t: ChildTask) {
    forall id :: id in mid.tasks ==> id in db'.tasks && FollowedBy(mid.tasks[id], db'.tasks[id], t)
  }

  lemma EndedRow(db: Db, mid: Db, db': Db, t: ChildTask)
    requires RowWritten(db, mid, t) && AllFollow(mid, db', t)
    ensures t.id in db'.tasks && db'.tasks[t.id] == RowFor(db.tasks[t.id], t, None)
  {
    hide OthersKept;
  }

  lemma OthersFollow(db: Db, mid: Db, db': Db, t: ChildTask)
    requires RowWritten(db, mid, t) && AllFollow(mid, db', t)
    ensures forall id :: id in db.tasks && id != t.id ==> id in db'.tasks && FollowedBy(db.tasks[id], db'.tasks[id], t)
  {
    hide FollowedBy;
    forall id | id in db.tasks && id != t.id ensures id in db'.tasks && FollowedBy(db.tasks[id], db'.tasks[id], t) {
      assert mid.tasks[id] == db.tasks[id];
      assert id in mid.tasks.Keys;
    }
  }

  lemma EndJoin(db: Db, mid: Db, db': Db, t: ChildTask)
    requires RowWritten(db, mid, t) && OthersKept(mid, db', Settled(mid, t)) && AllFollow(mid, db', t)
    requires LaterTasks(db, db') && NoneForgotten(db', t)
    ensures EndShape(db, db', t)
  {
    LaterDeps(db, db');
    EndedRow(db, mid, db', t);
    OthersFollow(db, mid, db', t);
    assert db'.ids == db.ids && db'.tasks.Keys == db.tasks.Keys;
    hide Settled, NoneForgotten, LaterTasks, RowWritten, AllFollow, OthersKept, FollowedBy;
  }

  /** An end writes the ended task, and moves no other task but those it frees or blocks. */
  lemma EndHasShape(r: Redactor, db: Db, t: ChildTask, actor: Name, now: int)
    requires Good(r, db) && LegalEnd(db, t, actor, now) && EndAndSettle(db, t, actor, now).Ok?
    ensures EndShape(db, EndAndSettle(db, t, actor, now).value, t)
  {
    hide *;
    LegalEndTerminal(db, t, actor, now);
    var mid, db' := AfterEnd(db, t, actor, now), EndAndSettle(db, t, actor, now).value;
    EndAndSettleSafe(r, db, t, actor, now);
    SettleSafe(r, mid, t, actor, now);
    SafeGood(r, mid, db');
    SafeTasks(r, mid, db');
    SafeTasks(r, db, db');
    StatusInTable(mid, t);
    SettledIs(mid, db', t);
    SettledFollow(r, mid, db', t);
    if t.status == Completed { CompletedForgetsNone(r, mid, db', t); } else { EndedForgetsNone(r, mid, db', t); }
    AfterEndWritten(db, t, actor, now);
    EndJoin(db, mid, db', t);
  }

  lemma StatusInTable(db: Db, t: ChildTask)
    requires HasStatus(db, t.id, t.status)
    ensures t.id in db.tasks
  {}

  lemma SettledIs(mid: Db, db': Db, t: ChildTask)
    requires forall id :: id in Settled(mid, t) ==> id in mid.tasks && id in db'.tasks && SettledRow(mid.tasks[id], db'.tasks[id], t)
    ensures AllSettled(mid, db', t)
  {}

  lemma EndMoves(db: Db, db': Db, t: ChildTask)
    requires EndShape(db, db', t) && Edge(db.tasks[t.id], db'.tasks[t.id])
    ensures Moves(db, db', None)
  {
    hide NoneForgotten;
    forall id | id in db.tasks ensures id in db'.tasks && Moved(db.tasks[id], db'.tasks[id]) {
      assert id in db'.tasks.Keys;
      assert id != t.id ==> FollowedBy(db.tasks[id], db'.tasks[id], t);
    }
  }

  // ----- One transaction at a time -----

  lemma FinishShape(r: Redactor, db: Db, t: Ticket, status: Status, result: Option<TaskResult>, reason: string, actor: Name, now: int)
    requires Good(r, db) && Protocol.Finish(db, r, t, status, result, reason, actor, now).out.Ok?
    ensures var f := Protocol.Finish(db, r, t, status, result, reason, actor, now);
      && EndShape(db, f.db, f.out.value) && f.out.value.id == t.taskId
      && Edge(db.tasks[t.taskId], f.db.tasks[t.taskId])
      && db.tasks[t.taskId].status == Running
      && (f.out.value.status == Completed ==> status == Completed && !db.tasks[t.taskId].cancelRequested)
  {
    var f := Protocol.Finish(db, r, t, status, result, reason, actor, now);
    hide Good, LegalEnd, EndShape, Protocol.Finish, EndState, EndAndSettle, RowAgrees, FlagAgrees, RedactPayload;
    FinishUnfold(r, db, t, status, result, reason, actor, now);
    EndLegal(r, db, t, status, result, reason, actor, now);
    EndHasShape(r, db, f.out.value, actor, now);
    RowFacts(r, db, t.taskId);
    EndedRowOf(r, db, t, status, result, reason, now);
    hide Rewritten;
    ShapeRow(db, f.db, f.out.value);
  }

  lemma ShapeRow(db: Db, db': Db, t: ChildTask)
    requires EndShape(db, db', t)
    ensures t.id in db.tasks && t.id in db'.tasks && db'.tasks[t.id].status == t.status && db'.tasks[t.id].revision == t.revision
    ensures db'.tasks[t.id].cancelRequested == t.cancelRequested && db'.tasks[t.id].snapshot == t
  {}

  lemma EndedRowOf(r: Redactor, db: Db, t: Ticket, status: Status, result: Option<TaskResult>, reason: string, now: int)
    requires Good(r, db) && HasStatus(db, t.taskId, Running) && EndState(r, TaskAt(db, t.taskId), status, result, reason, now).Ok?
    ensures var u := Rewritten(r, EndState(r, TaskAt(db, t.taskId), status, result, reason, now).value, now);
      && u.id == t.taskId && u.attemptCount == db.tasks[t.taskId].snapshot.attemptCount && u.revision == db.tasks[t.taskId].revision + 1
      && u.cancelRequested == db.tasks[t.taskId].cancelRequested
      && u.status == (if u.cancelRequested then Cancelled
                      else if status in {Completed, BudgetExhausted} then status else Failed)
      && u.updatedAt == now && u.completedAt == Some(now) && (u.reason.Some? <==> u.status != Completed)
  {
    hide Good, EndState, RedactPayload, RowAgrees, RedactResultOption;
    RowFacts(r, db, t.taskId);
    EndStateFacts(r, TaskAt(db, t.taskId), status, result, reason, now);
    RewrittenFacts(r, EndState(r, TaskAt(db, t.taskId), status, result, reason, now).value, now);
    hide Rewritten;
  }

  lemma ExpireShape(r: Redactor, db: Db, id: Id, expected: nat, actor: Name, now: int)
    requires Good(r, db) && ExpireDeadline(db, r, id, expected, actor, now).out == Ok(true)
    ensures id in db.tasks
    ensures var after := ExpireDeadline(db, r, id, expected, actor, now).db;
      && EndShape(db, after, ExpiredTask(db, r, id, now)) && ExpiredTask(db, r, id, now).id == id
      && ExpiredTask(db, r, id, now).status == BudgetExhausted
      && Edge(db.tasks[id], after.tasks[id])
  {
    hide Good, LegalEnd, EndShape, ExpireDeadline, EndAndSettle, RowAgrees, FlagAgrees, RedactPayload, DEADLINE_REASON;
    ExpireUnfold(db, r, id, expected, actor, now);
    ExpiryLegal(r, db, id, actor, now);
    RowFacts(r, db, id);
    RewrittenFacts(r, EndedAs(TaskAt(db, id), BudgetExhausted, DEADLINE_REASON, now), now);
    hide Rewritten;
    EndHasShape(r, db, ExpiredTask(db, r, id, now), actor, now);
    ShapeRow(db, ExpireDeadline(db, r, id, expected, actor, now).db, ExpiredTask(db, r, id, now));
  }

  /** `db'` is `db` with one row advanced to `t`. */
  ghost predicate OneMove(db: Db, db': Db, t: ChildTask) {
    && OthersKept(db, db', {t.id}) && t.id in db.tasks && t.id in db'.tasks
    && db'.tasks[t.id].status == t.status && db'.tasks[t.id].revision == t.revision
    && db'.tasks[t.id].cancelRequested == t.cancelRequested && db'.tasks[t.id].snapshot == t
  }

  lemma AdvanceIsOneMove(db: Db, t: ChildTask, claim: Option<Claim>, event: EventRow)
    requires t.id in db.tasks
    ensures OneMove(db, Advance(db, t, claim, event), t)
  {}

  lemma OneMoveMoves(db: Db, db': Db, t: ChildTask)
    requires OneMove(db, db', t)
    ensures Edge(db.tasks[t.id], db'.tasks[t.id]) ==> Moves(db, db', None)
    ensures RetryEdge(db.tasks[t.id], db'.tasks[t.id]) ==> Moves(db, db', Some(t.id))
  {
    hide Edge, RetryEdge;
  }

  lemma StartShape(r: Redactor, db: Db, id: Id, expected: nat, worker: Name, seconds: int, now: int)
    requires Good(r, db) && Protocol.Start(db, r, id, expected, worker, seconds, now).out.Ok?
    ensures id in db.tasks
    ensures var s := Protocol.Start(db, r, id, expected, worker, seconds, now);
      && OneMove(db, s.db, StartedTask(db, r, id, now)) && StartedTask(db, r, id, now).id == id
      && StartedTask(db, r, id, now).status == Running && !StartedTask(db, r, id, now).cancelRequested
      && HasStatus(db, id, Ready) && Edge(db.tasks[id], s.db.tasks[id])
  {
    hide Good, OneMove, Protocol.Start, Advance, NewClaim, RowAgrees, FlagAgrees, RedactPayload, DepsCompleted, ParentHasRoom;
    StartUnfold(db, r, id, expected, worker, seconds, now);
    RowFacts(r, db, id);
    RewrittenFacts(r, TaskAt(db, id).(status := Running, attemptCount := TaskAt(db, id).attemptCount + 1, reason := None), now);
    hide Rewritten;
    AdvanceIsOneMove(db, StartedTask(db, r, id, now), Some(NewClaim(db, worker, seconds, now)), EventRow(AttemptStarted, worker, None, now));
    OneMoveRow(db, Protocol.Start(db, r, id, expected, worker, seconds, now).db, StartedTask(db, r, id, now));
  }

  lemma OneMoveRow(db: Db, db': Db, t: ChildTask)
    requires OneMove(db, db', t)
    ensures t.id in db.tasks && t.id in db'.tasks && db'.tasks[t.id].status == t.status
    ensures db'.tasks[t.id].revision == t.revision && db'.tasks[t.id].cancelRequested == t.cancelRequested
    ensures db'.tasks[t.id].snapshot == t
  {}

  lemma RetryShape(r: Redactor, db: Db, id: Id, expected: nat, actor: Name, now: int)
    requires Good(r, db) && Protocol.Retry(db, r, id, expected, actor, now).out.Ok?
    ensures var t := Protocol.Retry(db, r, id, expected, actor, now);
      && OneMove(db, t.db, t.out.value) && t.out.value.id == id && RetryEdge(db.tasks[id], t.db.tasks[id])
      && !db.tasks[id].status.Completed?
      && (t.out.value.status == Pending ==> !DepsCompleted(db, Deps(db, id)) && DeadDeps(db, Deps(db, id)) == [])
      && (t.out.value.status == Ready ==> DepsCompleted(db, Deps(db, id)))
      && t.out.value.result == None && t.out.value.completedAt == None
  {
    hide Good, OneMove, Protocol.Retry, Advance, InitialState, RowAgrees, FlagAgrees, RedactPayload, DepsCompleted, DeadDeps;
    var t := Protocol.Retry(db, r, id, expected, actor, now);
    RetryUnfold(db, r, id, expected, actor, now);
    RowFacts(r, db, id);
    var pending := RetryTask(TaskAt(db, id)).value;
    InitialStateFacts(db, pending);
    RewrittenFacts(r, InitialState(db, pending).value, now);
    hide Rewritten;
    AdvanceIsOneMove(db, t.out.value, None, EventRow(Retried, actor, None, now));
    OneMoveRow(db, t.db, t.out.value);
  }

  // ----- Transactions that move many rows -----

  /** What a recovery does to one row: an expired attempt ends, and a waiting task may be blocked. */
  predicate Recovered(row: TaskRow, row': TaskRow, expired: bool) {
    if expired then
      && row.status == Running && row'.status == Unknown && row'.cancelRequested == row.cancelRequested
      && row'.revision == row.revision + 1 && row'.snapshot.attemptCount == row.snapshot.attemptCount
    else
      || row' == row
      || (row.status in {Pending, Ready} && row'.status == Blocked && !row'.cancelRequested
          && row'.revision == row.revision + 1 && row'.snapshot.attemptCount == row.snapshot.attemptCount)
  }

  ghost predicate AllRecovered(db: Db, db': Db, expired: set<Id>) {
    && db'.ids == db.ids && db'.tasks.Keys == db.tasks.Keys
    && forall id :: id in db.tasks ==> Recovered(db.tasks[id], db'.tasks[id], id in expired)
  }

  lemma AllRecoveredTrans(a: Db, b: Db, c: Db, s: set<Id>, t: set<Id>)
    requires AllRecovered(a, b, s) && AllRecovered(b, c, t)
    ensures AllRecovered(a, c, s + t)
  {
    forall id | id in a.tasks ensures Recovered(a.tasks[id], c.tasks[id], id in s + t) {
      assert id in b.tasks.Keys;
      assert Recovered(a.tasks[id], b.tasks[id], id in s) && Recovered(b.tasks[id], c.tasks[id], id in t);
    }
  }

  lemma UnknownShape(r: Redactor, db: Db, id: Id, actor: Name, now: int)
    requires Good(r, db) && HasStatus(db, id, Running) && id in db.tasks
    requires LegalEnd(db, UnknownTask(db, r, id, now), actor, now)
    requires EndAndSettle(db, UnknownTask(db, r, id, now), actor, now).Ok?
    ensures var t, after := UnknownTask(db, r, id, now), EndAndSettle(db, UnknownTask(db, r, id, now), actor, now).value;
      && EndShape(db, after, t) && t.status == Unknown && AllRecovered(db, after, {id})
  {
    hide Good, LegalEnd, EndShape, EndAndSettle, RowAgrees, FlagAgrees, RedactPayload, LEASE_EXPIRED, AllRecovered;
    RowFacts(r, db, id);
    RewrittenFacts(r, EndedAs(TaskAt(db, id), Unknown, LEASE_EXPIRED, now), now);
    hide Rewritten;
    var t := UnknownTask(db, r, id, now);
    EndHasShape(r, db, t, actor, now);
    UnknownRecovers(db, EndAndSettle(db, t, actor, now).value, t);
  }

  lemma UnknownRecovers(db: Db, db': Db, t: ChildTask)
    requires EndShape(db, db', t) && t.status == Unknown && t.revision == db.tasks[t.id].revision + 1
    requires t.id in db.tasks && db.tasks[t.id].status == Running && t.cancelRequested == db.tasks[t.id].cancelRequested
    requires t.attemptCount == db.tasks[t.id].snapshot.attemptCount
    ensures AllRecovered(db, db', {t.id})
  {
    hide NoneForgotten;
    forall id | id in db.tasks ensures Recovered(db.tasks[id], db'.tasks[id], id in {t.id}) {
      assert id != t.id ==> FollowedBy(db.tasks[id], db'.tasks[id], t);
    }
  }

  lemma AllRecoveredRefl(db: Db)
    ensures AllRecovered(db, db, {})
  {}

  function Members(rows: seq<Id>): set<Id> {
    set id | id in rows
  }

  lemma MembersHead(rows: seq<Id>)
    ensures rows == [] ==> Members(rows) == {}
    ensures rows != [] ==> Members(rows) == {rows[0]} + Members(rows[1..])
  {
    if rows != [] { assert rows == [rows[0]] + rows[1..]; }
  }

  lemma {:induction false} RecoverRowsShape(r: Redactor, db: Db, rows: seq<Id>, actor: Name, now: int)
    requires Good(r, db) && NoDuplicates(rows) && AllRunning(db, rows) && AllPresent(db, rows)
    requires RecoverRows(db, r, rows, actor, now).Ok?
    ensures AllRecovered(db, RecoverRows(db, r, rows, actor, now).value.0, Members(rows))
    decreases |rows|
  {
    MembersHead(rows);
    hide *;
    if rows == [] {
      RecoverNothing(db, r, rows, actor, now);
      AllRecoveredRefl(db);
    } else {
      FirstRuns(db, rows);
      RecoverRowsUnfold(db, r, rows, actor, now);
      RecoverStep(r, db, rows, actor, now);
      UnknownShape(r, db, rows[0], actor, now);
      var after := EndAndSettle(db, UnknownTask(db, r, rows[0], now), actor, now).value;
      RecoverRowsShape(r, after, rows[1..], actor, now);
      AllRecoveredTrans(db, after, RecoverRows(after, r, rows[1..], actor, now).value.0, {rows[0]}, Members(rows[1..]));
    }
  }

  /** A recovery ends exactly the attempts whose lease has run out. */
  lemma RecoverShape(r: Redactor, db: Db, actor: Name, now: int)
    requires Good(r, db) && RecoverExpired(db, r, actor, now).out.Ok?
    ensures AllRecovered(db, RecoverExpired(db, r, actor, now).db, ExpiredSet(db, now))
  {
    hide *;
    ExpiredRowsGood(r, db, now);
    RecoverUnfold(db, r, actor, now);
    RecoverRowsShape(r, db, ExpiredRows(db, now), actor, now);
    ExpiredMembers(r, db, now);
  }

  lemma ExpiredMembers(r: Redactor, db: Db, now: int)
    requires Good(r, db)
    ensures Members(ExpiredRows(db, now)) == ExpiredSet(db, now)
  {
    IdsFacts(db);
    ExpiredRowsFacts(db, now);
  }

  lemma RecoveredMoves(db: Db, db': Db, expired: set<Id>)
    requires AllRecovered(db, db', expired)
    ensures Moves(db, db', None)
  {
    forall id | id in db.tasks ensures id in db'.tasks && Moved(db.tasks[id], db'.tasks[id]) {
      assert id in db'.tasks.Keys && Recovered(db.tasks[id], db'.tasks[id], id in expired);
    }
  }

  lemma RecoverMoves(r: Redactor, db: Db, actor: Name, now: int)
    requires Good(r, db)
    ensures Moves(db, RecoverExpired(db, r, actor, now).db, None)
  {
    hide *;
    ExpiredRowsGood(r, db, now);
    RecoverUnfold(db, r, actor, now);
    if RecoverExpired(db, r, actor, now).out.Ok? {
      RecoverShape(r, db, actor, now);
      RecoveredMoves(db, RecoverExpired(db, r, actor, now).db, ExpiredSet(db, now));
    } else {
      MovesRefl(db);
    }
  }

  lemma CancelledMoves(r: Redactor, db: Db, db': Db, live: set<Id>)
    requires Good(r, db) && OthersKept(db, db', live) && AllNowCancelled(db, db', live)
    requires forall id :: id in live ==> id in db.tasks && !Terminal(db.tasks[id].status)
    ensures Moves(db, db', None)
  {
    hide Good, RowAgrees;
    forall id | id in db.tasks ensures id in db'.tasks && Moved(db.tasks[id], db'.tasks[id]) {
      assert id in db'.tasks.Keys;
      RowFacts(r, db, id);
      if id in live { assert NowCancelled(db.tasks[id], db'.tasks[id]); }
    }
  }

  lemma CancelMoves(r: Redactor, db: Db, id: Id, expected: nat, actor: Name, reason: Name, now: int)
    requires Good(r, db)
    ensures Moves(db, RequestCancel(db, r, id, expected, actor, reason, now).db, None)
  {
    hide *;
    var c := RequestCancel(db, r, id, expected, actor, reason, now);
    RequestCancelSafe(r, db, id, expected, actor, reason, now);
    if c.out.Ok? {
      LiveFacts(db, Descendants(db, id));
      CancelledMoves(r, db, c.db, Live(db, Descendants(db, id)));
    } else {
      MovesRefl(db);
    }
  }

  lemma LiveFacts(db: Db, rows: seq<Id>)
    ensures forall id :: id in Live(db, rows) ==> id in db.tasks && !Terminal(db.tasks[id].status)
  {}

  // ----- Creation -----

  /** `db'` has one more task, whose parent could still take children. */
  ghost predicate Added(db: Db, db': Db, t: ChildTask) {
    && t.id !in db.tasks && db'.tasks.Keys == db.tasks.Keys + {t.id}
    && (forall id :: id in db.tasks ==> db'.tasks[id] == db.tasks[id])
    && db'.tasks[t.id].snapshot == t && db'.tasks[t.id].status == t.status && db'.tasks[t.id].revision == 0 && t.attemptCount == 0
    && (forall d :: d in t.deps ==> d in db.tasks)
    && (t.lineage.parent.Some? ==> TakesChildren(db, t.lineage.parent.value))
    && (t.status == Pending ==> !DepsCompleted(db, t.deps) && DeadDeps(db, t.deps) == [])
  }

  lemma CreateShape(r: Redactor, db: Db, t: ChildTask, actor: Name, key: Option<string>)
    requires Good(r, db) && Idempotent(r) && FreshTask(t)
    ensures var c := Protocol.Create(db, r, t, actor, key);
      c.db == db || (c.out.Ok? && Added(db, c.db, c.out.value))
  {
    var c := Protocol.Create(db, r, t, actor, key);
    hide Good, Added, StoreNew, RedactTask, TaskAt, FreshTask;
    if c.db != db {
      assert c == StoreNew(db, r, t, actor, key) && t.revision == 0 && t.status == Pending;
      StoreNewUnfold(db, r, t, actor, key);
      NewIsAdded(r, db, t, actor, key);
    }
  }

  lemma InsertAdds(db: Db, t: ChildTask, stored: ChildTask, key: Option<string>, event: EventRow)
    requires stored.id !in db.tasks && stored.revision == 0 && stored.attemptCount == 0
    requires stored.deps == t.deps && stored.lineage.parent == t.lineage.parent
    requires FirstMissing(db, t.deps).None? && ValidateLineage(db, t).Ok?
    requires stored.status == Pending ==> !DepsCompleted(db, t.deps) && DeadDeps(db, t.deps) == []
    ensures Added(db, Insert(db, stored, key, event), stored)
  {
    ParentAlive(db, t);
    hide ValidateLineage, DepsCompleted, DeadDeps, FirstMissing;
  }

  lemma RedactTaskKeeps(r: Redactor, t: ChildTask)
    ensures var u := RedactTask(r, t);
      u.status == t.status && u.revision == t.revision && u.attemptCount == t.attemptCount
  {}

  lemma NewIsAdded(r: Redactor, db: Db, t: ChildTask, actor: Name, key: Option<string>)
    requires Good(r, db) && Idempotent(r) && FreshTask(t) && t.status == Pending && t.revision == 0
    requires StoreNew(db, r, t, actor, key).out.Ok?
    ensures Added(db, StoreNew(db, r, t, actor, key).db, StoreNew(db, r, t, actor, key).out.value)
  {
    assert t.attemptCount == 0;
    hide *;
    StoreNewUnfold(db, r, t, actor, key);
    StoredFacts(r, db, t);
    InitialStateFacts(db, t);
    var initial := InitialState(db, t).value;
    var stored := RedactTask(r, initial);
    RedactTaskKeeps(r, initial);
    InsertAdds(db, t, stored, key, EventRow(Created, actor, None, stored.createdAt));
  }

  lemma ParentAlive(db: Db, t: ChildTask)
    requires ValidateLineage(db, t).Ok?
    ensures t.lineage.parent.Some? ==> TakesChildren(db, t.lineage.parent.value)
  {}

  lemma AddedMoves(db: Db, db': Db, t: ChildTask)
    requires Added(db, db', t)
    ensures Moves(db, db', None)
  {}

  // ----- Any step -----

  function RetriedBy(c: Call): Option<Id> {
    if c.Retry? then Some(c.id) else None
  }

  lemma MovesWeaken(db: Db, db': Db, retried: Option<Id>)
    requires Moves(db, db', None)
    ensures Moves(db, db', retried)
  {
    hide Moved;
  }

  lemma QuietMoves(db: Db, db': Db)
    requires db'.tasks == db.tasks
    ensures Moves(db, db', None)
  {}

  lemma HeartbeatMoves(r: Redactor, db: Db, t: Ticket, seconds: int, now: int)
    requires Good(r, db)
    ensures Moves(db, Protocol.Heartbeat(db, t, seconds, now).db, None)
  {
    hide Good, Edge;
    var h := Protocol.Heartbeat(db, t, seconds, now);
    if h.out.Err? {
      MovesRefl(db);
    } else {
      assert Beaten(db.tasks[t.taskId], h.db.tasks[t.taskId]);
    }
  }

  lemma DeliveryMoves(db: Db, worker: Name, seconds: int, t: DeliveryTicket, delivered: bool, error: Option<string>, now: int)
    ensures Protocol.ClaimDelivery(db, worker, seconds, now).db.tasks == db.tasks
    ensures Protocol.FinishDelivery(db, t, delivered, error, now).db.tasks == db.tasks
  {
    hide OldestDue;
  }

  lemma CreateMoves(r: Redactor, db: Db, t: ChildTask, actor: Name, key: Option<string>)
    requires Good(r, db) && Idempotent(r) && FreshTask(t)
    ensures Moves(db, Protocol.Create(db, r, t, actor, key).db, None)
  {
    hide *;
    CreateShape(r, db, t, actor, key);
    var c := Protocol.Create(db, r, t, actor, key);
    if c.db == db { MovesRefl(db); } else { AddedMoves(db, c.db, c.out.value); }
  }

  lemma ExpireMoves(r: Redactor, db: Db, id: Id, expected: nat, actor: Name, now: int)
    requires Good(r, db)
    ensures Moves(db, ExpireDeadline(db, r, id, expected, actor, now).db, None)
  {
    hide *;
    ExpireUnfold(db, r, id, expected, actor, now);
    var e := ExpireDeadline(db, r, id, expected, actor, now);
    if e.out == Ok(true) {
      ExpireShape(r, db, id, expected, actor, now);
      EndMoves(db, e.db, ExpiredTask(db, r, id, now));
    } else {
      MovesRefl(db);
    }
  }

  lemma StartMoves(r: Redactor, db: Db, id: Id, expected: nat, worker: Name, seconds: int, now: int)
    requires Good(r, db)
    ensures Moves(db, Protocol.Start(db, r, id, expected, worker, seconds, now).db, None)
  {
    hide *;
    StartUnfold(db, r, id, expected, worker, seconds, now);
    var s := Protocol.Start(db, r, id, expected, worker, seconds, now);
    if s.out.Ok? {
      StartShape(r, db, id, expected, worker, seconds, now);
      OneMoveMoves(db, s.db, StartedTask(db, r, id, now));
    } else {
      MovesRefl(db);
    }
  }

  lemma FinishMoves(r: Redactor, db: Db, t: Ticket, status: Status, result: Option<TaskResult>, reason: string, actor: Name, now: int)
    requires Good(r, db)
    ensures Moves(db, Protocol.Finish(db, r, t, status, result, reason, actor, now).db, None)
  {
    hide *;
    FinishUnfold(r, db, t, status, result, reason, actor, now);
    var f := Protocol.Finish(db, r, t, status, result, reason, actor, now);
    if f.out.Ok? {
      FinishShape(r, db, t, status, result, reason, actor, now);
      EndMoves(db, f.db, f.out.value);
    } else {
      MovesRefl(db);
    }
  }

  lemma RetryMoves(r: Redactor, db: Db, id: Id, expected: nat, actor: Name, now: int)
    requires Good(r, db)
    ensures Moves(db, Protocol.Retry(db, r, id, expected, actor, now).db, Some(id))
  {
    hide *;
    RetryUnfold(db, r, id, expected, actor, now);
    var t := Protocol.Retry(db, r, id, expected, actor, now);
    if t.out.Ok? {
      RetryShape(r, db, id, expected, actor, now);
      OneMoveMoves(db, t.db, t.out.value);
    } else {
      MovesRefl(db);
      MovesWeaken(db, t.db, Some(id));
    }
  }

  /** In one step a task moves at most once, along an edge of the state machine,
      and only the task a retry names goes back. */
  lemma StepMoves(r: Redactor, db: Db, c: Call)
    requires Idempotent(r) && Good(r, db) && Admissible(c)
    ensures Moves(db, Step(r, db, c), RetriedBy(c))
  {
    hide Good, Moves, Idempotent, FreshTask, Protocol.Create, ExpireDeadline, Protocol.Start, Protocol.Heartbeat, Protocol.Finish;
    hide RequestCancel, Protocol.Retry, RecoverExpired, Protocol.ClaimDelivery, Protocol.FinishDelivery;
    match c
    case Create(t, actor, key) => CreateMoves(r, db, t, actor, key);
    case Expire(id, expected, actor, now) => ExpireMoves(r, db, id, expected, actor, now);
    case Start(id, expected, worker, seconds, now) => StartMoves(r, db, id, expected, worker, seconds, now);
    case Heartbeat(t, seconds, now) => HeartbeatMoves(r, db, t, seconds, now);
    case Finish(t, status, result, note, actor, now) => FinishMoves(r, db, t, status, result, note, actor, now);
    case Cancel(id, expected, actor, reason, now) => CancelMoves(r, db, id, expected, actor, reason, now);
    case Retry(id, expected, actor, now) => RetryMoves(r, db, id, expected, actor, now);
    case Recover(actor, now) => RecoverMoves(r, db, actor, now);
    case ClaimDelivery(worker, seconds, now) =>
      DeliveryMoves(db, worker, seconds, DeliveryTicket(("", 0), 0), false, None, now); QuietMoves(db, Step(r, db, c));
    case FinishDelivery(t, delivered, error, now) =>
      DeliveryMoves(db, "w", 1, t, delivered, error, now); QuietMoves(db, Step(r, db, c));
  }
}

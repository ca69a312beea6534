/**
 The supervisor drives one claimed attempt to its end while other workers, heartbeats
 and operators use the same store.  What the runner, the validator and the callbacks do
 is arbitrary, and so is what others do in between.
 */
module Supervisor {
  import opened Basics
  import opened Redaction
  import opened ChildModels
  import opened Tables
  import opened Protocol
  import opened Invariants
  import opened Growth
  import opened Steps
  import opened Transactions
  import opened Runs
  import opened Footprints
  import opened Guarantees
  import opened Effects
  import opened ChildTaskStores

  // ----- Parent-side validation -----

  datatype Issue = SchemaViolated | ClaimsLackEvidence(missing: seq<string>) | NoTrace | ReadOnlyChanged | NoChangeSet

  ghost predicate Evidenced(v: TaskResult, criterion: string) {
    exists i :: 0 <= i < |v.evidence| && criterion in v.evidence[i].criteria
  }

  /** Every completion claim is covered by evidence. */
  ghost predicate Covered(v: TaskResult) {
    forall c :: c in v.claims ==> Evidenced(v, c)
  }

  ghost predicate Acceptable(task: ChildTask, v: TaskResult, schemaOk: bool) {
    && schemaOk && Covered(v) && v.traceId.Some?
    && (v.changedFiles != [] ==> task.spec.mutable && v.changeSetId.Some?)
  }

  /** The criteria that the evidence names, each once. */
  method CollectCriteria(v: TaskResult) returns (evidenced: seq<string>)
    ensures forall c :: c in evidenced <==> Evidenced(v, c)
    ensures NoDuplicates(evidenced)
  {
    evidenced := [];
    var i := 0;
    while i < |v.evidence|
      invariant 0 <= i <= |v.evidence| && NoDuplicates(evidenced)
      invariant forall c :: c in evidenced <==> exists k :: 0 <= k < i && c in v.evidence[k].criteria
    {
      var names := v.evidence[i].criteria;
      var j := 0;
      while j < |names|
        invariant 0 <= j <= |names| && NoDuplicates(evidenced)
        invariant forall c :: c in evidenced <==>
          c in names[..j] || exists k :: 0 <= k < i && c in v.evidence[k].criteria
      {
        assert names[..j + 1] == names[..j] + [names[j]];
        if names[j] !in evidenced {
          evidenced := evidenced + [names[j]];
        }
        j := j + 1;
      }
      assert names[..j] == names;
      i := i + 1;
    }
  }

  /** Issues are listed exactly when the result is not acceptable, each for its own reason. */
  method Validate(task: ChildTask, v: TaskResult, schemaOk: bool) returns (issues: seq<Issue>)
    ensures issues == [] <==> Acceptable(task, v, schemaOk)
    ensures SchemaViolated in issues <==> !schemaOk
    ensures NoTrace in issues <==> v.traceId.None?
    ensures ReadOnlyChanged in issues <==> v.changedFiles != [] && !task.spec.mutable
    ensures NoChangeSet in issues <==> v.changedFiles != [] && v.changeSetId.None?
    ensures forall missing :: ClaimsLackEvidence(missing) in issues ==>
      forall c :: c in missing <==> c in v.claims && !Evidenced(v, c)
  {
    issues := if schemaOk then [] else [SchemaViolated];
    var evidenced := CollectCriteria(v);
    var missing: seq<string> := [];
    var i := 0;
    while i < |v.claims|
      invariant 0 <= i <= |v.claims|
      invariant forall c :: c in missing <==> c in v.claims[..i] && !Evidenced(v, c)
    {
      assert v.claims[..i + 1] == v.claims[..i] + [v.claims[i]];
      if v.claims[i] !in evidenced {
        missing := missing + [v.claims[i]];
      }
      i := i + 1;
    }
    assert v.claims[..i] == v.claims;
    assert missing == [] <==> Covered(v) by {
      FirstIsMember(missing);
    }
    if missing != [] {
      issues := issues + [ClaimsLackEvidence(missing)];
    }
    if v.traceId.None? {
      issues := issues + [NoTrace];
    }
    if v.changedFiles != [] && !task.spec.mutable {
      issues := issues + [ReadOnlyChanged];
    }
    if v.changedFiles != [] && v.changeSetId.None? {
      issues := issues + [NoChangeSet];
    }
  }

  /** Redaction renames criteria in claims and evidence alike, so coverage survives it. */
  lemma CoverageSurvives(r: Redactor, v: TaskResult)
    requires Covered(v)
    ensures Covered(RedactResult(r, v))
  {
    var u := RedactResult(r, v);
    forall c | c in u.claims ensures Evidenced(u, c) {
      var i :| 0 <= i < |v.claims| && RedactEach(r, v.claims)[i] == c;
      assert v.claims[i] in v.claims;
      var k :| 0 <= k < |v.evidence| && v.claims[i] in v.evidence[k].criteria;
      var names := v.evidence[k].criteria;
      var j :| 0 <= j < |names| && names[j] == v.claims[i];
      assert RedactEach(r, names)[j] == c;
      assert c in RedactNames(r, names);
      assert c in u.evidence[k].criteria;
    }
  }

  // ----- What the finished attempt looks like -----

  /** The attempt of the ticket has ended with the status and the result of `t`. */
  predicate ClosedAs(db: Db, claim: Ticket, t: ChildTask) {
    var key := (claim.taskId, t.attemptCount);
    && t.id == claim.taskId && key in db.attempts
    && db.attempts[key].id == claim.attemptId && db.attempts[key].token == claim.token
    && db.attempts[key].status == t.status && db.attempts[key].result == t.result
  }

  /** The newest attempt of a task is the one whose ticket is held. */
  lemma HeldAttempt(r: Redactor, db: Db, claim: Ticket)
    requires Good(r, db) && Holds(db, claim)
    ensures var key := (claim.taskId, db.tasks[claim.taskId].snapshot.attemptCount);
      key in db.attempts && db.attempts[key].id == claim.attemptId && db.attempts[key].token == claim.token
  {
    GoodParts(r, db);
    hide Good, RowsAgree, Founded, DependencyOrder, HistoryDense, OutboxAgrees, ParallelismBounded, Redacted;
    assert AttemptMatches(db.attempts[(claim.taskId, db.tasks[claim.taskId].snapshot.attemptCount)], db.tasks[claim.taskId].claim.value);
  }

  lemma ClosedStays(db: Db, db': Db, claim: Ticket, t: ChildTask)
    requires LaterAttempts(db, db') && ClosedAs(db, claim, t) && t.status != Running
    ensures ClosedAs(db', claim, t)
  {
    AttemptsEndOnce(db, db', (claim.taskId, t.attemptCount));
    hide LaterAttempts;
  }

  lemma SettledCloses(r: Redactor, db: Db, claim: Ticket, t: ChildTask, actor: Name, now: int)
    requires Good(r, db) && Holds(db, claim) && HasStatus(db, claim.taskId, Running) && t.id == claim.taskId
    requires LegalEnd(db, t, actor, now) && EndAndSettle(db, t, actor, now).Ok?
    ensures ClosedAs(EndAndSettle(db, t, actor, now).value, claim, t)
  {
    hide Good, LegalEnd, EndAndSettle;
    HeldAttempt(r, db, claim);
    LegalEndCount(db, t, actor, now);
    EndCloses(r, db, t, actor, now);
  }

  lemma SafeAttempts(r: Redactor, db: Db, db': Db)
    requires Safe(r, db, db')
    ensures LaterAttempts(db, db')
  {
    hide Good, LaterTasks, LaterAttempts, LaterOutbox;
  }

  predicate Ending(s: Status) {
    s in {Completed, Failed, BudgetExhausted, Status.Cancelled}
  }

  /** A `finish` that succeeds closes exactly the attempt of the ticket it was given. */
  lemma FinishCloses(r: Redactor, db: Db, claim: Ticket, status: Status, result: Option<TaskResult>, reason: string, actor: Name, now: int)
    requires Good(r, db) && Protocol.Finish(db, r, claim, status, result, reason, actor, now).out.Ok?
    ensures var f := Protocol.Finish(db, r, claim, status, result, reason, actor, now);
      && ClosedAs(f.db, claim, f.out.value) && Ending(f.out.value.status)
      && HasStatus(f.db, claim.taskId, f.out.value.status)
      && (f.out.value.status == Completed ==>
            && status == Completed && result.Some?
            && f.out.value.result == Some(RedactResult(r, RedactResult(r, result.value))))
  {
    var f := Protocol.Finish(db, r, claim, status, result, reason, actor, now);
    hide Good, EndState, EndAndSettle, LegalEnd, Protocol.Finish, ClosedAs, Rewritten, AssertClaim, RedactResult, EndShape, Edge;
    FinishUnfold(r, db, claim, status, result, reason, actor, now);
    AssertClaimFacts(db, claim, now, true);
    EndLegal(r, db, claim, status, result, reason, actor, now);
    FinishShape(r, db, claim, status, result, reason, actor, now);
    SettledCloses(r, db, claim, f.out.value, actor, now);
    ShapeRow(db, f.db, f.out.value);
    EndedRowOf(r, db, claim, status, result, reason, now);
    if f.out.value.status == Completed { CompletedResult(r, db, claim, status, result, reason, now); }
  }

  lemma CompletedResult(r: Redactor, db: Db, claim: Ticket, status: Status, result: Option<TaskResult>, reason: string, now: int)
    requires Good(r, db) && HasStatus(db, claim.taskId, Running) && status == Completed && !db.tasks[claim.taskId].cancelRequested
    requires EndState(r, TaskAt(db, claim.taskId), status, result, reason, now).Ok?
    ensures result.Some?
    ensures Rewritten(r, EndState(r, TaskAt(db, claim.taskId), status, result, reason, now).value, now).result ==
      Some(RedactResult(r, RedactResult(r, result.value)))
  {
    hide RedactPayload, RedactResult;
    RowFacts(r, db, claim.taskId);
    hide Good;
    var ended := EndState(r, TaskAt(db, claim.taskId), status, result, reason, now).value;
    assert ended.result == Some(RedactResult(r, result.value));
    RewrittenFacts(r, ended, now);
  }

  // ----- One claimed attempt -----

  /** How the runner leaves `run`: with a result, or by raising. */
  datatype RunnerEnd = Returned(result: TaskResult) | OverBudget(text: string) | LeaseLost | Rejected(text: string) | Broke(text: string)

  /** Everything the code around the store may do: whether the factory makes a runner, how the
      runner ends, whether the heartbeat lost the lease, what the schema check says, and
      whether a callback raises. */
  datatype Behaviour = Behaviour(
    created: bool, end: RunnerEnd, beatLost: bool, schemaOk: bool, callbackRaises: bool, now: int, later: int)

  class TaskSupervisor {
    const store: ChildTaskStore
    const worker: Name

    constructor (s: ChildTaskStore, w: Name)
      ensures store == s && worker == w
    {
      store, worker := s, w;
    }

    /** One transaction by anybody. */
    method Other(c: Call)
      requires store.Valid() && Admissible(c)
      modifies store
      ensures store.Valid() && store.Tables() == Step(store.redactor, old(store.Tables()), c)
    {
      hide Good, Idempotent, FreshTask, Protocol.Create, ExpireDeadline, Protocol.Start, Protocol.Heartbeat, Protocol.Finish;
      hide RequestCancel, Protocol.Retry, RecoverExpired, Protocol.ClaimDelivery, Protocol.FinishDelivery;
      match c
      case Create(t, actor, key) => var _ := store.Create(t, actor, key);
      case Expire(id, expected, actor, now) => var _ := store.ExpireDeadlineIfDue(id, expected, actor, now);
      case Start(id, expected, w, seconds, now) => var _ := store.StartNextAttempt(id, expected, w, seconds, now);
      case Heartbeat(t, seconds, now) => var _ := store.Heartbeat(t, seconds, now);
      case Finish(t, status, result, note, actor, now) => var _ := store.FinishAttempt(t, status, result, note, actor, now);
      case Cancel(id, expected, actor, reason, now) => var _ := store.RequestCancel(id, expected, actor, reason, now);
      case Retry(id, expected, actor, now) => var _ := store.Retry(id, expected, actor, now);
      case Recover(actor, now) => var _ := store.RecoverExpired(actor, now);
      case ClaimDelivery(w, seconds, now) => var _ := store.ClaimDelivery(w, seconds, now);
      case FinishDelivery(t, delivered, error, now) => var _ := store.FinishDelivery(t, delivered, error, now);
    }

    /** What others do while this worker is between two uses of the store. */
    method Others(calls: seq<Call>)
      requires store.Valid() && AllAdmissible(calls)
      modifies store
      ensures store.Valid() && store.Tables() == Run(store.redactor, old(store.Tables()), calls)
      ensures old(store.Tables()).uuids <= store.Tables().uuids
    {
      hide Good, Idempotent, Admissible, Step;
      ghost var db := store.Tables();
      RunGood(store.redactor, db, calls);
      var i := 0;
      assert calls[..0] == [];
      while i < |calls|
        invariant 0 <= i <= |calls| && store.Valid() && store.Tables() == Run(store.redactor, db, calls[..i])
      {
        assert Admissible(calls[i]);
        assert calls[..i + 1][..i] == calls[..i];
        Other(calls[i]);
        i := i + 1;
      }
      assert calls[..i] == calls;
    }

    /** Up to the result: make a runner, run it, validate what it returns, and complete.  The task
        is completed exactly when nothing on the way fails and the result is acceptable for the
        task as it was read; otherwise this says what was raised. */
    method TryToComplete(claim: Ticket, b: Behaviour, before: seq<Call>, during: seq<Call>)
      returns (done: Option<ChildTask>, raised: RunnerEnd)
      requires store.Valid() && AllAdmissible(before) && AllAdmissible(during) && claim.taskId in store.tasks
      modifies store
      ensures store.Valid()
      ensures done.None? ==> !raised.Returned?
      ensures done.None? && !b.end.Returned? ==> raised == b.end
      ensures old(store.Tables()).uuids <= store.Tables().uuids
      ensures Earns(TaskAt(old(store.Tables()), claim.taskId), b) ==>
        var f := Protocol.Finish(Run(store.redactor, Run(store.redactor, old(store.Tables()), before), during),
                                 store.redactor, claim, Completed, Some(b.end.result), "", worker, b.now);
        && store.Tables() == f.db
        && (done.Some? <==> f.out.Ok? && !b.callbackRaises)
        && (done.Some? ==> f.out == Outcome<ChildTask>.Ok(done.value) && Reported(store.Tables(), claim, done.value))
        && (done.None? ==> !raised.OverBudget? && !raised.Rejected? && (raised.LeaseLost? <==> f.out == Err(LeaseConflict)))
      ensures !Earns(TaskAt(old(store.Tables()), claim.taskId), b) ==>
        && done.None? && raised == Obstacle(b)
        && store.Tables() == UpToResult(store.redactor, old(store.Tables()), b, before, during)
    {
      hide Good, Idempotent, AllAdmissible, Run, Covered, Reported, ClosedAs, Protocol.Finish, RedactResult;
      done, raised := None, Broke("");
      var task := TaskAt(store.Tables(), claim.taskId);
      Others(before);
      if !b.created {
        return None, if b.end.Returned? then Broke("") else b.end;
      }
      Others(during);
      if !b.end.Returned? {
        return None, b.end;
      }
      if b.beatLost {
        return None, LeaseLost;
      }
      var issues := Validate(task, b.end.result, b.schemaOk);
      if issues != [] {
        return None, Rejected("issues");
      }
      ghost var db := store.Tables();
      FinishGrows(store.redactor, db, claim, Completed, Some(b.end.result), "", worker, b.now);
      var completed := store.FinishAttempt(claim, Completed, Some(b.end.result), "", worker, b.now);
      if completed.Err? {
        return None, if completed.error == LeaseConflict then LeaseLost else Broke("");
      }
      FinishCloses(store.redactor, db, claim, Completed, Some(b.end.result), "", worker, b.now);
      CoverageSurvives(store.redactor, b.end.result);
      CoverageSurvives(store.redactor, RedactResult(store.redactor, b.end.result));
      CompletedReported(store.Tables(), claim, completed.value);
      if b.callbackRaises {
        return None, Broke("");
      }
      return Some(completed.value), raised;
    }

    /** Run one claimed attempt.  However runner, validator, heartbeat and callbacks behave and
        whatever others do meanwhile: if this returns, the attempt of the claim has ended, as
        COMPLETED, FAILED, BUDGET_EXHAUSTED or CANCELLED, and as it had to. */
    method RunClaim(claim: Ticket, b: Behaviour, before: seq<Call>, during: seq<Call>, after: seq<Call>, last: seq<Call>)
      returns (out: Outcome<ChildTask>)
      requires store.Valid() && AllAdmissible(before) && AllAdmissible(during) && AllAdmissible(after) && AllAdmissible(last)
      modifies store
      ensures store.Valid()
      ensures out.Ok? ==> Reported(store.Tables(), claim, out.value)
      // a runner that did well, in time, completes its task
      ensures claim.taskId in old(store.Tables()).tasks && Earns(TaskAt(old(store.Tables()), claim.taskId), b) && !b.callbackRaises ==>
        var f := Protocol.Finish(Run(store.redactor, Run(store.redactor, old(store.Tables()), before), during),
                                 store.redactor, claim, Completed, Some(b.end.result), "", worker, b.now);
        f.out.Ok? ==> out == f.out && store.Tables() == f.db
      // and any other is ended for what went wrong
      ensures claim.taskId in old(store.Tables()).tasks && !Earns(TaskAt(old(store.Tables()), claim.taskId), b) ==>
        var at := Run(store.redactor, UpToResult(store.redactor, old(store.Tables()), b, before, during), after);
        var ended := Concluded(store.redactor, at, claim, Obstacle(b), worker, b.later, last);
        store.Tables() == ended.db && out == if ended.out.Ok? && b.callbackRaises then Err(InvalidValue) else ended.out
      // no other is completed
      ensures out.Ok? && out.value.status == Completed ==>
        && claim.taskId in old(store.Tables()).tasks && Earns(TaskAt(old(store.Tables()), claim.taskId), b)
        && out.value.result == Some(RedactResult(store.redactor, RedactResult(store.redactor, b.end.result)))
      // an attempt ends as out of budget exactly when the runner says so
      ensures out.Ok? && out.value.status != Status.Cancelled ==> (out.value.status == BudgetExhausted <==> b.end.OverBudget?)
      // the reason is the runner's own
      ensures out.Ok? && out.value.status == BudgetExhausted ==>
        out.value.reason == Some(store.redactor.text(BudgetText(b.end.text)))
      ensures out.Ok? && out.value.status == Failed && b.end.Broke? ==>
        out.value.reason == Some(store.redactor.text(FailureText(b.end.text)))
      ensures out.Ok? && out.value.status == Failed && b.end.Rejected? ==>
        out.value.reason == Some(store.redactor.text(FailureText(REJECTED + b.end.text)))
      // a worker that lost its lease reports nothing but an observed cancellation
      ensures out.Ok? && Issued(old(store.Tables()), claim) && (b.end.LeaseLost? || (b.end.Returned? && b.created && b.beatLost)) ==>
        out.value.status == Status.Cancelled
    {
      hide Good, Idempotent, AllAdmissible, Run, Reported, Protocol.Finish, Acceptable, RedactResult, FailureText, BudgetText, REJECTED, Concluded;
      if claim.taskId !in store.tasks {
        return Err(NotFound(claim.taskId));
      }
      ghost var mid := Run(store.redactor, Run(store.redactor, store.Tables(), before), during);
      RunGood(store.redactor, store.Tables(), before);
      RunGood(store.redactor, Run(store.redactor, store.Tables(), before), during);
      var done, raised := TryToComplete(claim, b, before, during);
      if done.Some? {
        CompletedExactly(store.redactor, mid, claim, b.end.result, worker, b.now);
        return Ok(done.value);
      }
      RunGood(store.redactor, store.Tables(), after);
      Others(after);
      out := Conclude(claim, raised, b.later, last);
      if out.Ok? && b.callbackRaises {
        return Err(InvalidValue);
      }
    }

    /** End the attempt for what was raised. */
    method Conclude(claim: Ticket, raised: RunnerEnd, now: int, last: seq<Call>) returns (out: Outcome<ChildTask>)
      requires store.Valid() && AllAdmissible(last) && !raised.Returned?
      modifies store
      ensures store.Valid()
      ensures Txn(store.Tables(), out) == Concluded(store.redactor, old(store.Tables()), claim, raised, worker, now, last)
      ensures out.Ok? ==> Reported(store.Tables(), claim, out.value)
      ensures out.Ok? ==>
        out.value.status == Status.Cancelled || out.value.status == if raised.OverBudget? then BudgetExhausted else Failed
      ensures out.Ok? && out.value.status == BudgetExhausted ==>
        out.value.reason == Some(store.redactor.text(BudgetText(raised.text)))
      ensures out.Ok? && out.value.status == Failed && !raised.LeaseLost? ==>
        out.value.reason == Some(store.redactor.text(FailureText(if raised.Rejected? then REJECTED + raised.text else raised.text)))
      ensures out.Ok? && raised.LeaseLost? && Issued(old(store.Tables()), claim) ==> out.value.status == Status.Cancelled
    {
      hide Good, Idempotent, AllAdmissible, Run, Reported, Protocol.Finish, Holds, FailureText, BudgetText, REJECTED, STOPPED;
      match raised
      case OverBudget(text) =>
        out := Report(claim, BudgetExhausted, text, now);
      case LeaseLost =>
        if claim.taskId !in store.tasks || !store.tasks[claim.taskId].cancelRequested {
          return Err(LeaseConflict);
        }
        ghost var db := store.Tables();
        if Issued(db, claim) { RunKeepsFlag(store.redactor, db, last, claim); }
        Others(last);
        out := Report(claim, Failed, STOPPED, now);
      case Rejected(text) =>
        out := Report(claim, Failed, REJECTED + text, now);
      case Broke(text) =>
        out := Report(claim, Failed, text, now);
    }

    /** End the attempt without a result. */
    method Report(claim: Ticket, status: Status, reason: string, now: int) returns (out: Outcome<ChildTask>)
      requires store.Valid() && status in {Failed, BudgetExhausted}
      modifies store
      ensures store.Valid()
      ensures Txn(store.Tables(), out) == Protocol.Finish(old(store.Tables()), store.redactor, claim, status, None, reason, worker, now)
      ensures out.Ok? ==>
        && Reported(store.Tables(), claim, out.value) && Holds(old(store.Tables()), claim)
        && ReportedAs(store.redactor, TaskAt(old(store.Tables()), claim.taskId), out.value, status, reason)
    {
      hide *;
      store.ValidParts();
      ghost var db := store.Tables();
      out := store.FinishAttempt(claim, status, None, reason, worker, now);
      if out.Ok? {
        NotCompleted(status);
        NotCompletedReported(store.redactor, db, claim, status, reason, worker, now);
        FinishedAs(store.redactor, db, claim, status, reason, worker, now);
      }
    }

    /** Deliver one completion.  The row is marked delivered only after the consumer returned. */
    method DeliverOnce(consumerRaised: Option<string>, seconds: int, now: int, between: seq<Call>, later: int)
      returns (out: Outcome<Option<DeliveryRow>>)
      requires store.Valid() && AllAdmissible(between)
      modifies store
      ensures store.Valid()
      ensures var c := Protocol.ClaimDelivery(old(store.Tables()), worker + ":delivery", seconds, now);
        && (c.out.Err? ==> out == Err(c.out.error) && store.Tables() == c.db)
        && (c.out == Ok(None) ==> out == Ok(None) && store.Tables() == c.db)
        && (out.Ok? && out.value.Some? ==>
              && c.out.Ok? && c.out.value.Some?
              && var key, d := c.out.value.value.key, out.value.value;
              && key in store.Tables().outbox && store.Tables().outbox[key] == d
              && d.status == (if consumerRaised.None? then DeliveryDelivered else DeliveryFailed)
              && d.error == consumerRaised && d.deliveredAt == (if consumerRaised.None? then Some(later) else None))
    {
      hide Good, Idempotent, AllAdmissible, Run, Protocol.ClaimDelivery;
      var claimed := store.ClaimDelivery(worker + ":delivery", seconds, now);
      if claimed.Err? {
        return Err(claimed.error);
      }
      if claimed.value.None? {
        return Ok(None);
      }
      Others(between);
      var finished := store.FinishDelivery(claimed.value.value, consumerRaised.None?, consumerRaised, later);
      if finished.Err? {
        return Err(finished.error);
      }
      return Ok(Some(finished.value));
    }
  }

  /** A runner was made, it returned without losing the lease, and what it returned is
      acceptable for the task. */
  ghost predicate Earns(task: ChildTask, b: Behaviour) {
    b.created && b.end.Returned? && !b.beatLost && Acceptable(task, b.end.result, b.schemaOk)
  }

  /** What stops an attempt whose result is not earned. */
  function Obstacle(b: Behaviour): RunnerEnd {
    if !b.end.Returned? then b.end
    else if !b.created then Broke("")
    else if b.beatLost then LeaseLost
    else Rejected("issues")
  }

  /** The tables when the runner is through. */
  function UpToResult(r: Redactor, db: Db, b: Behaviour, before: seq<Call>, during: seq<Call>): Db {
    if b.created then Run(r, Run(r, db, before), during) else Run(r, db, before)
  }

  /** How an attempt ends that was stopped: as out of budget, as failed, or, with its lease
      lost, not at all unless a cancellation can be observed. */
  function Concluded(r: Redactor, db: Db, claim: Ticket, raised: RunnerEnd, worker: Name, now: int, last: seq<Call>): Txn<ChildTask>
    requires !raised.Returned?
  {
    match raised
    case OverBudget(text) => Protocol.Finish(db, r, claim, BudgetExhausted, None, text, worker, now)
    case LeaseLost =>
      if claim.taskId in db.tasks && db.tasks[claim.taskId].cancelRequested
      then Protocol.Finish(Run(r, db, last), r, claim, Failed, None, STOPPED, worker, now)
      else Txn(db, Err(LeaseConflict))
    case Rejected(text) => Protocol.Finish(db, r, claim, Failed, None, REJECTED + text, worker, now)
    case Broke(text) => Protocol.Finish(db, r, claim, Failed, None, text, worker, now)
  }

  const REJECTED := "Parent validation rejected child completion: "
  const STOPPED := "Child execution stopped at a cancellation boundary."

  /** What a returned task means: the claimed attempt has ended that way, and a completed task
      has a covered result. */
  ghost predicate Reported(db: Db, claim: Ticket, t: ChildTask) {
    && ClosedAs(db, claim, t) && Ending(t.status)
    && (t.status == Completed ==> t.result.Some? && Covered(t.result.value))
  }

  lemma CompletedReported(db: Db, claim: Ticket, t: ChildTask)
    requires ClosedAs(db, claim, t) && Ending(t.status)
    requires t.status == Completed ==> t.result.Some? && Covered(t.result.value)
    ensures Reported(db, claim, t)
  {}

  lemma NotCompletedReported(r: Redactor, db: Db, claim: Ticket, status: Status, reason: string, actor: Name, now: int)
    requires Good(r, db) && status != Completed && Protocol.Finish(db, r, claim, status, None, reason, actor, now).out.Ok?
    ensures var f := Protocol.Finish(db, r, claim, status, None, reason, actor, now); Reported(f.db, claim, f.out.value)
  {
    hide Good, Protocol.Finish, ClosedAs, Covered;
    FinishCloses(r, db, claim, status, None, reason, actor, now);
  }

  function FailureText(reported: string): string {
    if reported == "" then "Child execution failed." else reported
  }

  function BudgetText(reported: string): string {
    if reported == "" then "Budget exhausted." else reported
  }

  /** The task ended as reported, or a cancellation was observed. */
  predicate ReportedAs(r: Redactor, was: ChildTask, u: ChildTask, status: Status, reason: string) {
    if was.cancelRequested then u.status == Status.Cancelled
    else
      && u.status == status
      && u.reason == Some(r.text(if status == Failed then FailureText(reason) else BudgetText(reason)))
  }

  lemma NotCompleted(status: Status)
    requires status in {Failed, BudgetExhausted}
    ensures status != Completed
  {}

  lemma FinishedAs(r: Redactor, db: Db, claim: Ticket, status: Status, reason: string, actor: Name, now: int)
    requires Good(r, db) && status in {Failed, BudgetExhausted}
    requires Protocol.Finish(db, r, claim, status, None, reason, actor, now).out.Ok?
    ensures Holds(db, claim)
    ensures ReportedAs(r, TaskAt(db, claim.taskId), Protocol.Finish(db, r, claim, status, None, reason, actor, now).out.value, status, reason)
  {
    hide Good, Protocol.Finish, OnRecord, RedactResult, RedactResultOption, EndState, EndAndSettle, TaskAt;
    FinishRecords(r, db, claim, status, None, reason, actor, now);
    FinishUnfold(r, db, claim, status, None, reason, actor, now);
    AssertClaimFacts(db, claim, now, true);
  }

  lemma FinishGrows(r: Redactor, db: Db, claim: Ticket, status: Status, result: Option<TaskResult>, reason: string, actor: Name, now: int)
    requires Good(r, db)
    ensures db.uuids <= Protocol.Finish(db, r, claim, status, result, reason, actor, now).db.uuids
  {
    assert forall db' :: LaterAttempts(db, db') ==> db.uuids <= db'.uuids;
    hide *;
    FinishSafe(r, db, claim, status, result, reason, actor, now);
    SafeAttempts(r, db, Protocol.Finish(db, r, claim, status, result, reason, actor, now).db);
  }

  lemma RunGood(r: Redactor, db: Db, calls: seq<Call>)
    requires Idempotent(r) && Good(r, db) && AllAdmissible(calls)
    ensures Good(r, Run(r, db, calls)) && db.uuids <= Run(r, db, calls).uuids
  {
    assert forall db' :: LaterAttempts(db, db') ==> db.uuids <= db'.uuids;
    hide *;
    RunSafe(r, db, calls);
    SafeGood(r, db, Run(r, db, calls));
    SafeAttempts(r, db, Run(r, db, calls));
  }

  /** Finishing as COMPLETED completes with the redacted result, or observes a cancellation. */
  lemma CompletedExactly(r: Redactor, db: Db, claim: Ticket, result: TaskResult, actor: Name, now: int)
    requires Good(r, db) && Protocol.Finish(db, r, claim, Completed, Some(result), "", actor, now).out.Ok?
    ensures var u := Protocol.Finish(db, r, claim, Completed, Some(result), "", actor, now).out.value;
      && u.status in {Completed, Status.Cancelled}
      && (u.status == Completed ==> u.result == Some(RedactResult(r, RedactResult(r, result))))
  {
    hide Good, Protocol.Finish, OnRecord, RedactResult, RedactResultOption;
    FinishRecords(r, db, claim, Completed, Some(result), "", actor, now);
  }

  // ----- A cancellation request outlives the claim it was made against -----

  /** While the ticket is held, its task is flagged. */
  ghost predicate FlaggedIfHeld(db: Db, t: Ticket) {
    Issued(db, t) && t.taskId in db.tasks && (Holds(db, t) ==> db.tasks[t.taskId].cancelRequested)
  }

  lemma FlagMoves(r: Redactor, db: Db, db': Db, retried: Option<Id>, t: Ticket)
    requires Good(r, db) && Moves(db, db', retried) && Holds(db, t) && db.tasks[t.taskId].cancelRequested
    ensures t.taskId in db'.tasks && (Holds(db', t) ==> db'.tasks[t.taskId].cancelRequested)
  {
    hide Good;
    RowFacts(r, db, t.taskId);
  }

  lemma StepKeepsFlag(r: Redactor, db: Db, c: Call, t: Ticket)
    requires Idempotent(r) && Good(r, db) && Admissible(c) && FlaggedIfHeld(db, t)
    ensures FlaggedIfHeld(Step(r, db, c), t)
  {
    var db' := Step(r, db, c);
    assert Later(db, db') by { hide *; StepSafe(r, db, c); SafeLater(r, db, db'); }
    assert Moves(db, db', RetriedBy(c)) by { hide *; StepMoves(r, db, c); }
    hide Good, Step, Moves, Admissible, Idempotent;
    LaterParts(db, db');
    if Holds(db, t) {
      FlagMoves(r, db, db', RetriedBy(c), t);
    } else {
      LostStaysLost(r, db, db', t, 1, 0, true, Failed, None, "", "w");
    }
    assert db.uuids <= db'.uuids;
  }

  lemma SafeLater(r: Redactor, db: Db, db': Db)
    requires Safe(r, db, db')
    ensures Later(db, db')
  {
    hide Good, Later;
  }

  lemma {:induction false} RunKeepsFlag(r: Redactor, db: Db, calls: seq<Call>, t: Ticket)
    requires Idempotent(r) && Good(r, db) && AllAdmissible(calls) && FlaggedIfHeld(db, t)
    ensures FlaggedIfHeld(Run(r, db, calls), t)
    decreases |calls|
  {
    if calls != [] {
      var n := |calls| - 1;
      var before := Run(r, db, calls[..n]);
      assert AllAdmissible(calls[..n]) && Admissible(calls[n]) by { hide Admissible; assert Admissible(calls[n]); }
      assert Run(r, db, calls) == Step(r, before, calls[n]) by { hide Step; }
      hide *;
      RunKeepsFlag(r, db, calls[..n], t);
      RunSafe(r, db, calls[..n]);
      SafeGood(r, db, before);
      StepKeepsFlag(r, before, calls[n], t);
    }
  }

  /** What was reported stays so: the attempt keeps its outcome in every later state. */
  lemma ReportedStays(r: Redactor, db: Db, db': Db, claim: Ticket, t: ChildTask)
    requires Idempotent(r) && Good(r, db) && LeadsTo(r, db, db') && Reported(db, claim, t)
    ensures Reported(db', claim, t)
  {
    hide Good, Idempotent, LeadsTo, LaterTasks, LaterAttempts, LaterOutbox, Covered, ClosedAs;
    LeadsToSafe(r, db, db');
    ClosedStays(db, db', claim, t);
  }
}

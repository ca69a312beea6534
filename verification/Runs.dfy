/**
 Runs: any interleaving of the store's transactions, by any workers, at any
 times.  A claim is two transactions, so other calls may come between them.
 */
module Runs {
  import opened Basics
  import opened Redaction
  import opened ChildModels
  import opened Tables
  import opened Protocol
  import opened Invariants
  import opened Growth
  import opened Steps
  import opened Transactions

  datatype Call =
    | Create(task: ChildTask, actor: Name, key: Option<string>)
    | Expire(id: Id, expected: nat, actor: Name, now: int)
    | Start(id: Id, expected: nat, worker: Name, seconds: int, now: int)
    | Heartbeat(ticket: Ticket, seconds: int, now: int)
    | Finish(ticket: Ticket, status: Status, result: Option<TaskResult>, note: string, actor: Name, now: int)
    | Cancel(id: Id, expected: nat, actor: Name, reason: Name, now: int)
    | Retry(id: Id, expected: nat, actor: Name, now: int)
    | Recover(actor: Name, now: int)
    | ClaimDelivery(worker: Name, seconds: int, now: int)
    | FinishDelivery(delivery: DeliveryTicket, delivered: bool, error: Option<string>, now: int)

  /** The tables after one call. */
  function Step(r: Redactor, db: Db, c: Call): Db {
    match c
    case Create(t, actor, key) => Protocol.Create(db, r, t, actor, key).db
    case Expire(id, expected, actor, now) => Protocol.ExpireDeadline(db, r, id, expected, actor, now).db
    case Start(id, expected, worker, seconds, now) => Protocol.Start(db, r, id, expected, worker, seconds, now).db
    case Heartbeat(t, seconds, now) => Protocol.Heartbeat(db, t, seconds, now).db
    case Finish(t, status, result, note, actor, now) => Protocol.Finish(db, r, t, status, result, note, actor, now).db
    case Cancel(id, expected, actor, reason, now) => Protocol.RequestCancel(db, r, id, expected, actor, reason, now).db
    case Retry(id, expected, actor, now) => Protocol.Retry(db, r, id, expected, actor, now).db
    case Recover(actor, now) => Protocol.RecoverExpired(db, r, actor, now).db
    case ClaimDelivery(worker, seconds, now) => Protocol.ClaimDelivery(db, worker, seconds, now).db
    case FinishDelivery(t, delivered, error, now) => Protocol.FinishDelivery(db, t, delivered, error, now).db
  }

  /** New tasks arrive as `delegate` builds them; nothing else is asked of a caller. */
  ghost predicate Admissible(c: Call) {
    c.Create? ==> FreshTask(c.task)
  }

  ghost predicate AllAdmissible(calls: seq<Call>) {
    forall i :: 0 <= i < |calls| ==> Admissible(calls[i])
  }

  function Run(r: Redactor, db: Db, calls: seq<Call>): Db
    decreases |calls|
  {
    if calls == [] then db else Step(r, Run(r, db, calls[..|calls| - 1]), Last(calls))
  }

  /** One transaction keeps every invariant, and the tables only grow. */
  lemma StepSafe(r: Redactor, db: Db, c: Call)
    requires Idempotent(r) && Good(r, db) && Admissible(c)
    ensures Safe(r, db, Step(r, db, c))
  {
    hide Good, Safe, Idempotent, FreshTask, Protocol.Create, ExpireDeadline, Protocol.Start, Protocol.Heartbeat, Protocol.Finish;
    hide RequestCancel, Protocol.Retry, RecoverExpired, Protocol.ClaimDelivery, Protocol.FinishDelivery;
    match c
    case Create(t, actor, key) => CreateSafe(r, db, t, actor, key);
    case Expire(id, expected, actor, now) => ExpireDeadlineSafe(r, db, id, expected, actor, now);
    case Start(id, expected, worker, seconds, now) => StartSafe(r, db, id, expected, worker, seconds, now);
    case Heartbeat(t, seconds, now) => HeartbeatSafe(r, db, t, seconds, now);
    case Finish(t, status, result, note, actor, now) => FinishSafe(r, db, t, status, result, note, actor, now);
    case Cancel(id, expected, actor, reason, now) => RequestCancelSafe(r, db, id, expected, actor, reason, now);
    case Retry(id, expected, actor, now) => RetrySafe(r, db, id, expected, actor, now);
    case Recover(actor, now) => RecoverExpiredSafe(r, db, actor, now);
    case ClaimDelivery(worker, seconds, now) => ClaimDeliverySafe(r, db, worker, seconds, now);
    case FinishDelivery(t, delivered, error, now) => FinishDeliverySafe(r, db, t, delivered, error, now);
  }

  /** Every run from good tables stays good, and its tables only grow. */
  lemma {:induction false} RunSafe(r: Redactor, db: Db, calls: seq<Call>)
    requires Idempotent(r) && Good(r, db) && AllAdmissible(calls)
    ensures Safe(r, db, Run(r, db, calls))
    decreases |calls|
  {
    hide Safe, Idempotent, Good, Step, Admissible;
    if calls == [] {
      SafeRefl(r, db);
    } else {
      var before := Run(r, db, calls[..|calls| - 1]);
      RunSafe(r, db, calls[..|calls| - 1]);
      SafeGood(r, db, before);
      assert Admissible(calls[|calls| - 1]);
      StepSafe(r, before, Last(calls));
      SafeTrans(r, db, before, Step(r, before, Last(calls)));
    }
  }

  /** A run can be cut anywhere. */
  lemma {:induction false} RunSplit(r: Redactor, db: Db, first: seq<Call>, rest: seq<Call>)
    ensures Run(r, db, first + rest) == Run(r, Run(r, db, first), rest)
    decreases |rest|
  {
    hide Step;
    if rest == [] {
      assert first + rest == first;
    } else {
      var n := |rest| - 1;
      assert (first + rest)[..|first + rest| - 1] == first + rest[..n];
      RunSplit(r, db, first, rest[..n]);
    }
  }

  /** The tables some run from the empty store leads to. */
  ghost predicate Reachable(r: Redactor, db: Db) {
    exists calls :: AllAdmissible(calls) && Run(r, EmptyDb, calls) == db
  }

  /** The tables some run leads to from `db`. */
  ghost predicate LeadsTo(r: Redactor, db: Db, db': Db) {
    exists calls :: AllAdmissible(calls) && Run(r, db, calls) == db'
  }

  /** Every invariant holds in every reachable state. */
  lemma ReachableGood(r: Redactor, db: Db)
    requires Idempotent(r) && Reachable(r, db)
    ensures Good(r, db)
  {
    var calls :| AllAdmissible(calls) && Run(r, EmptyDb, calls) == db;
    assert Good(r, EmptyDb) by { EmptyInv(); }
    hide *;
    RunSafe(r, EmptyDb, calls);
    SafeGood(r, EmptyDb, Run(r, EmptyDb, calls));
  }

  lemma LeadsToSafe(r: Redactor, db: Db, db': Db)
    requires Idempotent(r) && Good(r, db) && LeadsTo(r, db, db')
    ensures Good(r, db') && Later(db, db')
  {
    hide Good, Run, Idempotent, AllAdmissible, Later;
    var calls :| AllAdmissible(calls) && Run(r, db, calls) == db';
    RunSafe(r, db, calls);
  }
}

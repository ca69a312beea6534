/**
 Two short runs in which the store falls short: a cancellation that strands a PENDING
 task, and a failure that cannot be recorded.
 */
module Counterexamples {
  import opened Basics
  import opened Redaction
  import opened ChildModels
  import opened Transitions
  import opened Tables
  import opened Protocol
  import opened Invariants
  import opened Growth
  import opened Steps
  import opened Transactions
  import opened Runs
  import opened Footprints
  import opened Wakeup
  import opened Cancellation
  import opened Guarantees
  import opened Frames
  import opened Cascade
  import opened Conflicts
  import opened Listing

  const PLAIN := Redactor((s: string) => s, (s: string) => false)

  const WORK := Spec(Null, Capabilities(FilesOff, false, MemoryOff, false, false, false), [], [], [], None,
                     "local", HostWorkspace, Leaf, false, 1, 1, None)

  const FIRST := ChildTask("a", WORK, Lineage(None, None, 1), [], Null, Pending, 0, 0, false, None, None, 0, 0, None)
  const SECOND := FIRST.(id := "b", deps := ["a"])

  const ACTOR: Name := "operator"

  function AfterFirst(): Db {
    Insert(EmptyDb, FIRST.(status := Ready), None, EventRow(Created, ACTOR, None, 0))
  }

  function AfterSecond(): Db {
    Insert(AfterFirst(), SECOND, None, EventRow(Created, ACTOR, None, 0))
  }

  lemma PlainKeeps(t: ChildTask)
    requires t.spec == WORK && t.lineage == Lineage(None, None, 1) && t.links == Null && t.result == None && t.reason == None
    requires NoDuplicates(t.deps)
    ensures RedactTask(PLAIN, t) == t
  {
    RedactNamesOfClean(PLAIN, []);
    RedactNamesOfClean(PLAIN, t.deps);
    assert RedactSpec(PLAIN, WORK) == WORK;
  }

  lemma FirstStored()
    ensures Protocol.Create(EmptyDb, PLAIN, FIRST, ACTOR, None) == Txn(AfterFirst(), Ok(FIRST.(status := Ready)))
  {
    PlainKeeps(FIRST.(status := Ready));
    assert InitialState(EmptyDb, FIRST) == Ok(FIRST.(status := Ready));
    hide RedactTask, InitialState;
  }

  lemma SecondWaits()
    ensures var db := AfterFirst();
      && ValidateLineage(db, SECOND).Ok? && FirstMissing(db, SECOND.deps).None? && InitialState(db, SECOND) == Ok(SECOND)
      && SECOND.id !in db.tasks && SECOND.createdAt == 0 && SECOND.revision == 0 && SECOND.status == Pending
  {
    var db := AfterFirst();
    assert "a" in db.tasks && db.tasks["a"].status == Ready;
    assert SECOND.deps == ["a"] && "a" in SECOND.deps;
    assert DeadDeps(db, ["a"]) == [];
    hide OperatorReason;
  }

  lemma SecondStored()
    ensures Protocol.Create(AfterFirst(), PLAIN, SECOND, ACTOR, None) == Txn(AfterSecond(), Ok(SECOND))
  {
    PlainKeeps(SECOND);
    hide RedactTask, InitialState, FirstMissing, ValidateLineage, AfterFirst, Protocol.Create, StoreNew, Insert;
    SecondWaits();
    CreatePaths(AfterFirst(), PLAIN, SECOND, ACTOR, None);
    StoreNewPaths(AfterFirst(), PLAIN, SECOND, ACTOR, None);
  }

  const CREATIONS: seq<Call> := [Call.Create(FIRST, ACTOR, None), Call.Create(SECOND, ACTOR, None)]
  const CANCELLATION: Call := Cancel("a", 0, ACTOR, "stop", 1)

  lemma CreationsRun()
    ensures AllAdmissible(CREATIONS) && Run(PLAIN, EmptyDb, CREATIONS) == AfterSecond()
  {
    FirstStored();
    SecondStored();
    assert CREATIONS[..1] == [Call.Create(FIRST, ACTOR, None)];
    assert CREATIONS[..1][..0] == [];
    hide Protocol.Create;
    assert Run(PLAIN, EmptyDb, []) == EmptyDb;
    assert Run(PLAIN, EmptyDb, CREATIONS[..1]) == AfterFirst();
  }

  lemma SecondOutside()
    ensures "b" in AfterSecond().tasks && !InSubtree(AfterSecond(), "a", "b")
  {
    var db := AfterSecond();
    forall k: nat ensures Ancestor(db, "b", k) != Some("a") {
      assert Parent(db, "b") == None;
    }
  }

  lemma PlainGood()
    ensures Idempotent(PLAIN) && Good(PLAIN, AfterSecond())
  {
    assert Good(PLAIN, EmptyDb) by { EmptyInv(); }
    assert Idempotent(PLAIN);
    hide *;
    CreationsRun();
    RunSafe(PLAIN, EmptyDb, CREATIONS);
    SafeGood(PLAIN, EmptyDb, AfterSecond());
  }

  lemma BeforeCancellation()
    ensures var db := AfterSecond();
      && "a" in db.tasks && db.tasks["a"].status == Ready && "b" in db.tasks && db.tasks["b"].status == Pending
      && "a" in Deps(db, "b") && CheckRevision(db, "a", 0).Ok?
  {
    assert Deps(AfterSecond(), "b") == ["a"];
  }

  lemma CancelFollows(db: Db)
    requires CheckRevision(db, "a", 0).Ok?
    ensures RequestCancel(db, PLAIN, "a", 0, ACTOR, "stop", 1).out.Ok?
  {
    hide CancelRows;
  }

  lemma LastStep(calls: seq<Call>, c: Call)
    requires AllAdmissible(calls) && Admissible(c)
    ensures AllAdmissible(calls + [c]) && Run(PLAIN, EmptyDb, calls + [c]) == Step(PLAIN, Run(PLAIN, EmptyDb, calls), c)
  {
    hide Step, Admissible;
    assert (calls + [c])[..|calls|] == calls;
  }

  lemma EndedHere(r: Redactor, db: Db, id: Id)
    requires Good(r, db) && id in db.tasks && db.tasks[id].status == Ready
    ensures id in EndedByCancel(db, id)
  {
    hide Good, Descendants;
    RootListed(r, db, id);
  }

  function AfterCancellation(): Db {
    RequestCancel(AfterSecond(), PLAIN, "a", 0, ACTOR, "stop", 1).db
  }

  lemma CancellationShape()
    ensures CancelShape(AfterSecond(), AfterCancellation(), "a")
  {
    hide Good, RequestCancel, AfterSecond, CancelShape, CheckRevision, Idempotent;
    PlainGood();
    BeforeCancellation();
    CancelFollows(AfterSecond());
    CancelHasShape(PLAIN, AfterSecond(), "a", 0, ACTOR, "stop", 1);
  }

  lemma FirstCancelled()
    ensures HasStatus(AfterCancellation(), "a", Cancelled)
  {
    hide Good, AfterSecond, AfterCancellation, CancelShape, Idempotent, CheckRevision, EndedByCancel, Descendants;
    PlainGood();
    BeforeCancellation();
    CancellationShape();
    EndedHere(PLAIN, AfterSecond(), "a");
    CancelledRow(AfterSecond(), AfterCancellation(), "a", "a");
  }

  lemma SecondKept()
    ensures HasStatus(AfterCancellation(), "b", Pending) && "b" in AfterCancellation().tasks
    ensures "a" in Deps(AfterCancellation(), "b")
  {
    hide Good, AfterSecond, AfterCancellation, CancelShape, Idempotent, CheckRevision, EndedByCancel, Descendants, InSubtree;
    PlainGood();
    BeforeCancellation();
    CancellationShape();
    SecondOutside();
    DescendantsExact(PLAIN, AfterSecond(), "a");
    CancelledRow(AfterSecond(), AfterCancellation(), "a", "b");
  }

  lemma CancellationStep()
    ensures Admissible(CANCELLATION) && Step(PLAIN, AfterSecond(), CANCELLATION) == AfterCancellation()
  {
    hide RequestCancel;
  }

  /** Create `a`, create `b` that depends on `a`, cancel `a`: `b` stays PENDING behind a
      cancelled task, which `request_cancel` did not cascade from. */
  lemma CancellationStrands()
    ensures AllAdmissible(CREATIONS + [CANCELLATION])
    ensures var db := Run(PLAIN, EmptyDb, CREATIONS + [CANCELLATION]);
      && HasStatus(db, "a", Cancelled) && HasStatus(db, "b", Pending) && "a" in Deps(db, "b")
      && !NoneStranded(db)
  {
    hide *;
    CreationsRun();
    CancellationStep();
    LastStep(CREATIONS, CANCELLATION);
    FirstCancelled();
    SecondKept();
    StrandedHere(AfterCancellation());
  }

  lemma StrandedHere(db: Db)
    requires HasStatus(db, "a", Cancelled) && HasStatus(db, "b", Pending) && "b" in db.tasks && "a" in Deps(db, "b")
    ensures !NoneStranded(db)
  {}

  // ----- A failure that cannot be recorded -----

  const THIRD := FIRST.(id := "c", deps := ["a", "b"])

  function AfterThird(): Db {
    Insert(AfterSecond(), THIRD, None, EventRow(Created, ACTOR, None, 0))
  }

  lemma ThirdWaits()
    ensures var db := AfterSecond();
      && ValidateLineage(db, THIRD).Ok? && FirstMissing(db, THIRD.deps).None? && InitialState(db, THIRD) == Ok(THIRD)
      && THIRD.id !in db.tasks && THIRD.createdAt == 0 && THIRD.revision == 0 && THIRD.status == Pending
  {
    var db := AfterSecond();
    assert "a" in db.tasks && db.tasks["a"].status == Ready && "b" in db.tasks && db.tasks["b"].status == Pending;
    assert "a" in THIRD.deps;
    var dead := DeadDeps(db, ["a", "b"]);
    assert forall d :: d !in dead;
    FirstIsMember(dead);
    hide OperatorReason;
  }

  lemma ThirdStored()
    ensures Protocol.Create(AfterSecond(), PLAIN, THIRD, ACTOR, None) == Txn(AfterThird(), Ok(THIRD))
  {
    PlainKeeps(THIRD);
    hide RedactTask, InitialState, FirstMissing, ValidateLineage, AfterSecond, Protocol.Create, StoreNew, Insert;
    ThirdWaits();
    CreatePaths(AfterSecond(), PLAIN, THIRD, ACTOR, None);
    StoreNewPaths(AfterSecond(), PLAIN, THIRD, ACTOR, None);
  }

  const LAST_CREATION: Call := Call.Create(THIRD, ACTOR, None)
  const WORKER: Name := "worker"
  const CLAIM: Call := Call.Start("a", 0, WORKER, 60, 1)

  function AfterClaim(): Txn<Ticket> {
    Protocol.Start(AfterThird(), PLAIN, "a", 0, WORKER, 60, 1)
  }

  lemma ThirdStep()
    ensures Admissible(LAST_CREATION) && Step(PLAIN, AfterSecond(), LAST_CREATION) == AfterThird()
  {
    hide Protocol.Create;
    ThirdStored();
  }

  lemma ClaimStep()
    ensures Admissible(CLAIM) && Step(PLAIN, AfterThird(), CLAIM) == AfterClaim().db
  {
    hide Protocol.Start;
  }

  lemma ThirdGood()
    ensures Idempotent(PLAIN) && Good(PLAIN, AfterThird())
  {
    hide *;
    PlainGood();
    ThirdStep();
    StepSafe(PLAIN, AfterSecond(), LAST_CREATION);
    SafeGood(PLAIN, AfterSecond(), AfterThird());
  }

  lemma ThirdRows()
    ensures var db := AfterThird();
      && db.ids == ["a", "b", "c"] && db.tasks.Keys == {"a", "b", "c"}
      && db.tasks["a"].status == Ready && db.tasks["b"].status == Pending && db.tasks["c"].status == Pending
      && db.tasks["a"].revision == 0 && Parent(db, "a") == None
      && Deps(db, "a") == [] && Deps(db, "b") == ["a"] && Deps(db, "c") == ["a", "b"]
      && CreationTimes(db) == map["a" := 0, "b" := 0, "c" := 0]
  {
    var db := AfterThird();
    assert CreationTimes(db).Keys == {"a", "b", "c"};
    forall id | id in CreationTimes(db) ensures CreationTimes(db)[id] == 0 {}
    assert CreationTimes(db) == map["a" := 0, "b" := 0, "c" := 0];
  }

  lemma ThirdDependents()
    ensures Dependents(AfterThird(), "a") == ["b", "c"]
    ensures "c" in DependentSet(AfterThird(), "b")
  {
    ThirdRows();
    hide AfterThird;
    var db := AfterThird();
    assert DependentSet(db, "a") == {"b", "c"};
    var key := CreationTimes(db);
    assert ["a", "b", "c"][1..] == ["b", "c"] && ["b", "c"][1..] == ["c"] && ["c"][1..] == [];
    assert Picked(["a", "b", "c"], {"b", "c"}) == ["b", "c"] by {
      assert Picked(["c"], {"b", "c"}) == ["c"];
      assert Picked(["b", "c"], {"b", "c"}) == ["b"] + ["c"];
    }
    assert TextLess("b", "c");
    assert Sorted(key, ["c"]) == ["c"];
    assert Sorted(key, ["b", "c"]) == ["b", "c"];
  }

  lemma ClaimSucceeds()
    ensures AfterClaim().out.Ok?
  {
    hide Good, Protocol.Start, AfterThird, Idempotent;
    ThirdGood();
    ThirdRows();
    StartExactly(PLAIN, AfterThird(), "a", 0, WORKER, 60, 1);
  }

  /** The claim moves `a` alone, so its dependents are listed as before. */
  lemma ClaimedRows()
    ensures var db := AfterClaim().db;
      && Good(PLAIN, db) && HasStatus(db, "a", Running)
      && "b" in Blockable(db) - {"a"} && "c" in Blockable(db) - {"a"}
      && Dependents(db, "a") == ["b", "c"] && "c" in DependentSet(db, "b")
  {
    hide Good, Safe, Idempotent, AfterThird, AfterClaim, LaterTasks, StartedTask, Dependents, Edge, Step;
    var before, db := AfterThird(), AfterClaim().db;
    ThirdGood();
    ThirdRows();
    ThirdDependents();
    ClaimSucceeds();
    ClaimStep();
    StepSafe(PLAIN, before, CLAIM);
    SafeGood(PLAIN, before, db);
    SafeTasks(PLAIN, before, db);
    ClaimShape();
    LaterGraph(before, db);
  }

  lemma ClaimShape()
    ensures OthersKept(AfterThird(), AfterClaim().db, {"a"}) && HasStatus(AfterClaim().db, "a", Running)
  {
    hide Good, Idempotent, AfterThird, Protocol.Start, StartedTask, Edge;
    ThirdGood();
    ClaimSucceeds();
    StartShape(PLAIN, AfterThird(), "a", 0, WORKER, 60, 1);
  }

  lemma LaterGraph(before: Db, db: Db)
    requires LaterTasks(before, db) && db.ids == before.ids && db.tasks.Keys == before.tasks.Keys
    ensures forall id :: Dependents(db, id) == Dependents(before, id)
    ensures forall id :: DependentSet(db, id) == DependentSet(before, id)
  {
    forall id | id in before.tasks
      ensures Deps(db, id) == Deps(before, id) && db.tasks[id].snapshot.createdAt == before.tasks[id].snapshot.createdAt
    {
      assert LaterRow(before.tasks[id], db.tasks[id]);
    }
    hide LaterTasks;
    SameGraph(before, db);
    hide Dependents;
    forall id ensures DependentSet(db, id) == DependentSet(before, id) {
      assert forall d :: d in db.tasks.Keys <==> d in before.tasks.Keys;
    }
  }

  /** `b` depends on `a`, and `c` on both.  Once `a` is claimed its worker cannot report a
      failure at any time: the cascade blocks `c` below `b` and then meets it again, stale. */
  lemma FailureCannotBeRecorded(now: int, reason: string)
    ensures AllAdmissible(CREATIONS + [LAST_CREATION] + [CLAIM])
    ensures Run(PLAIN, EmptyDb, CREATIONS + [LAST_CREATION] + [CLAIM]) == AfterClaim().db
    ensures AfterClaim().out.Ok?
    ensures var f := Protocol.Finish(AfterClaim().db, PLAIN, AfterClaim().out.value, Failed, None, reason, WORKER, now);
      f.out.Err? && f.db == AfterClaim().db
  {
    hide *;
    CreationsRun();
    ThirdStep();
    LastStep(CREATIONS, LAST_CREATION);
    ClaimStep();
    LastStep(CREATIONS + [LAST_CREATION], CLAIM);
    ClaimSucceeds();
    ClaimedTangled();
    ClaimTicket();
    FailureRaises(AfterClaim().db, AfterClaim().out.value, reason, now);
  }

  lemma ClaimTicket()
    ensures AfterClaim().out.Ok? && AfterClaim().out.value.taskId == "a" && Good(PLAIN, AfterClaim().db)
  {
    hide Good, AfterThird, Protocol.Start, Idempotent, Dependents, Holds;
    ThirdGood();
    ClaimSucceeds();
    ClaimedRows();
    StartIssues(PLAIN, AfterThird(), "a", 0, WORKER, 60, 1);
  }

  lemma ClaimedTangled()
    ensures Tangled(AfterClaim().db, "a")
  {
    hide Good, AfterClaim, Tangled, Dependents;
    ClaimedRows();
    TriangleTangles(PLAIN, AfterClaim().db, "a", "b", "c");
  }

  lemma FailureRaises(db: Db, t: Ticket, reason: string, now: int)
    requires Good(PLAIN, db) && Tangled(db, "a") && t.taskId == "a"
    ensures var f := Protocol.Finish(db, PLAIN, t, Failed, None, reason, WORKER, now); f.out.Err? && f.db == db
  {
    hide Good, Tangled, Protocol.Finish, AssertClaim, EndState, EndAndSettle, Rewritten;
    FinishRaisesExactly(PLAIN, db, t, Failed, None, reason, WORKER, now);
    FinishUnfold(PLAIN, db, t, Failed, None, reason, WORKER, now);
  }
}

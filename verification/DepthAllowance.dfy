/**
 How far down the depth allowance of a task reaches.  `delegate` and `create` compare a
 new task's depth with its immediate parent's allowance, with its own, and with the
 host's, and never compare allowances with one another.  So an allowance binds deeper
 descendants exactly as far as the allowances in between do.
 */
module DepthAllowance {
  import opened Basics
  import opened Redaction
  import opened ChildModels
  import opened Transitions
  import opened Tables
  import opened Protocol
  import opened Invariants
  import opened Growth
  import opened Steps
  import opened Transactions
  import opened Runs
  import opened Footprints
  import opened Cancellation
  import opened Delegation
  import opened Frames
  import opened Counterexamples

  function Depth(db: Db, id: Id): nat
    requires id in db.tasks
  {
    db.tasks[id].snapshot.lineage.depth
  }

  function Allowance(db: Db, id: Id): nat
    requires id in db.tasks
  {
    db.tasks[id].snapshot.spec.maxDepth
  }

  // ----- One request -----

  /** A request that passes `delegate` passes the lineage check of `create` although it is
      deeper than ancestor `g` of its parent allows, if and only if the parent `p` takes
      children, is an orchestrator, and `p` and the request allow a depth that `g` does not. */
  lemma ExceedsExactly(r: Redactor, db: Db, policy: Policy, d: Delegated, a: Authority, id: Id, now: int, k: nat, g: Id)
    requires Good(r, db) && d.parent.Some? && Prepare(db, policy, d, a, id, now).Ok?
    requires Ancestor(db, d.parent.value, k) == Some(g) && g in db.tasks
    ensures d.parent.value in db.tasks
    ensures var t, p := Prepare(db, policy, d, a, id, now).value, d.parent.value;
      ValidateLineage(db, t).Ok? && t.lineage.depth > Allowance(db, g) <==>
        && TakesChildren(db, p) && db.tasks[p].snapshot.spec.role == Orchestrator
        && Allowance(db, g) < Depth(db, p) + 1 <= Min(Allowance(db, p), d.spec.maxDepth)
  {
    hide *;
    var t, p := Prepare(db, policy, d, a, id, now).value, d.parent.value;
    PreparedTask(db, policy, d, a, id, now);
    IdsInRows(r, db);
    LineageExactly(db, t);
    FitsBelow(db, t, p);
  }

  lemma FitsBelow(db: Db, t: ChildTask, p: Id)
    requires p in db.tasks && t.lineage.parent == Some(p) && t.lineage.depth == Depth(db, p) + 1
    requires t.lineage.root == Some(if db.tasks[p].snapshot.lineage.root.Some? then db.tasks[p].snapshot.lineage.root.value else p)
    ensures LineageFits(db, t) <==>
      db.tasks[p].snapshot.spec.role == Orchestrator && Depth(db, p) + 1 <= Min(Allowance(db, p), t.spec.maxDepth)
  {}

  lemma PreparedTask(db: Db, policy: Policy, d: Delegated, a: Authority, id: Id, now: int)
    requires d.parent.Some? && Prepare(db, policy, d, a, id, now).Ok?
    ensures var t, p := Prepare(db, policy, d, a, id, now).value, d.parent.value;
      && p in db.tasks && t.spec == d.spec && t.lineage.parent == Some(p) && t.lineage.depth == Depth(db, p) + 1
      && t.lineage.root == Some(if db.tasks[p].snapshot.lineage.root.Some? then db.tasks[p].snapshot.lineage.root.value else p)
  {
    hide ValidateAuthority;
  }

  // ----- Whole runs -----

  /** No task is deeper than any of its ancestors allows. */
  ghost predicate DepthsRespected(db: Db) {
    forall id, k: nat, a :: id in db.tasks && k > 0 && Ancestor(db, id, k) == Some(a) && a in db.tasks ==>
      Depth(db, id) <= Allowance(db, a)
  }

  /** One more level below `p` is within what `p` and all its ancestors allow. */
  ghost predicate Allows(db: Db, p: Id) {
    p in db.tasks && forall k: nat, a :: Ancestor(db, p, k) == Some(a) && a in db.tasks ==> Depth(db, p) + 1 <= Allowance(db, a)
  }

  lemma {:induction false} AncestorSame(db: Db, db': Db, id: Id, k: nat)
    requires LineageOrdered(db) && LaterTasks(db, db') && id in db.tasks
    ensures Ancestor(db', id, k) == Ancestor(db, id, k)
    ensures Ancestor(db, id, k).Some? ==> Ancestor(db, id, k).value in db.tasks
    decreases k
  {
    SpecsKept(db, db', id);
    LineageUp(db, id);
    hide LaterTasks, LineageOrdered;
    if k > 0 && Parent(db, id).Some? { AncestorSame(db, db', Parent(db, id).value, k - 1); }
  }

  lemma DepthSame(db: Db, db': Db, id: Id)
    requires LaterTasks(db, db') && id in db.tasks
    ensures id in db'.tasks && Depth(db', id) == Depth(db, id) && Allowance(db', id) == Allowance(db, id)
  {
    SpecsKept(db, db', id);
    hide LaterTasks;
  }

  /** Later tables respect no depth that earlier ones did not. */
  lemma RespectedBefore(db: Db, db': Db)
    requires LineageOrdered(db) && LaterTasks(db, db') && DepthsRespected(db')
    ensures DepthsRespected(db)
  {
    hide LaterTasks, LineageOrdered, Depth, Allowance, Ancestor;
    forall id, k: nat, a | id in db.tasks && k > 0 && Ancestor(db, id, k) == Some(a) && a in db.tasks
      ensures Depth(db, id) <= Allowance(db, a)
    {
      AncestorSame(db, db', id, k);
      DepthSame(db, db', id);
      DepthSame(db, db', a);
    }
  }

  lemma RespectedAfter(db: Db, db': Db)
    requires LineageOrdered(db) && LaterTasks(db, db') && db'.tasks.Keys == db.tasks.Keys && DepthsRespected(db)
    ensures DepthsRespected(db')
  {
    hide LaterTasks, LineageOrdered, Depth, Allowance, Ancestor;
    forall id, k: nat, a | id in db'.tasks && k > 0 && Ancestor(db', id, k) == Some(a) && a in db'.tasks
      ensures Depth(db', id) <= Allowance(db', a)
    {
      assert id in db.tasks.Keys && a in db.tasks.Keys;
      AncestorSame(db, db', id, k);
      DepthSame(db, db', id);
      DepthSame(db, db', a);
    }
  }

  lemma NewAncestors(db: Db, db': Db, t: ChildTask, k: nat)
    requires LineageOrdered(db) && LaterTasks(db, db') && Added(db, db', t) && t.lineage.parent.Some?
    requires t.lineage.parent.value in db.tasks
    ensures Ancestor(db', t.id, k + 1) == Ancestor(db, t.lineage.parent.value, k)
  {
    hide LaterTasks, LineageOrdered;
    AncestorSame(db, db', t.lineage.parent.value, k);
    assert t.id in db'.tasks.Keys;
  }

  /** A new task leaves every depth respected exactly if its parent allowed one more level. */
  lemma AddedRespects(db: Db, db': Db, t: ChildTask)
    requires LineageOrdered(db) && LaterTasks(db, db') && Added(db, db', t) && LineageFits(db, t) && DepthsRespected(db)
    ensures DepthsRespected(db') <==> (t.lineage.parent.Some? ==> Allows(db, t.lineage.parent.value))
  {
    assert t.id in db'.tasks.Keys && db'.tasks[t.id].snapshot == t;
    assert t.lineage.parent.Some? ==>
      t.lineage.parent.value in db.tasks && t.lineage.depth == Depth(db, t.lineage.parent.value) + 1;
    assert Depth(db', t.id) == t.lineage.depth;
    if DepthsRespected(db') && t.lineage.parent.Some? { RespectedAllows(db, db', t); }
    if t.lineage.parent.Some? ==> Allows(db, t.lineage.parent.value) { AllowedRespects(db, db', t); }
  }

  lemma RespectedAllows(db: Db, db': Db, t: ChildTask)
    requires LineageOrdered(db) && LaterTasks(db, db') && Added(db, db', t) && DepthsRespected(db')
    requires t.lineage.parent.Some? && t.lineage.parent.value in db.tasks && t.id in db'.tasks
    requires Depth(db', t.id) == Depth(db, t.lineage.parent.value) + 1
    ensures Allows(db, t.lineage.parent.value)
  {
    hide LaterTasks, LineageOrdered, Depth, Allowance, Ancestor, Added;
    var p := t.lineage.parent.value;
    forall k: nat, a | Ancestor(db, p, k) == Some(a) && a in db.tasks ensures Depth(db, p) + 1 <= Allowance(db, a) {
      NewAncestors(db, db', t, k);
      DepthSame(db, db', a);
    }
  }

  lemma AllowedRespects(db: Db, db': Db, t: ChildTask)
    requires LineageOrdered(db) && LaterTasks(db, db') && Added(db, db', t) && DepthsRespected(db)
    requires t.id in db'.tasks && Parent(db', t.id) == t.lineage.parent
    requires t.lineage.parent.Some? ==>
      && Allows(db, t.lineage.parent.value)
      && t.lineage.parent.value in db.tasks && Depth(db', t.id) == Depth(db, t.lineage.parent.value) + 1
    ensures DepthsRespected(db')
  {
    AddedKeys(db, db', t);
    hide LaterTasks, LineageOrdered, Depth, Allowance, Added;
    forall id, k: nat, a | id in db'.tasks && k > 0 && Ancestor(db', id, k) == Some(a) && a in db'.tasks
      ensures Depth(db', id) <= Allowance(db', a)
    {
      if id == t.id {
        assert t.lineage.parent.Some?;
        NewAncestors(db, db', t, k - 1);
        AncestorSame(db, db', t.lineage.parent.value, k - 1);
        DepthSame(db, db', a);
      } else {
        AncestorSame(db, db', id, k);
        DepthSame(db, db', id);
        DepthSame(db, db', a);
      }
    }
  }

  lemma AddedKeys(db: Db, db': Db, t: ChildTask)
    requires Added(db, db', t)
    ensures forall id :: id in db'.tasks <==> id in db.tasks || id == t.id
  {
    forall id ensures id in db'.tasks <==> id in db.tasks || id == t.id { assert id in db'.tasks.Keys <==> id in db.tasks.Keys + {t.id}; }
  }

  /** If the call creates a task below a parent, the parent and its ancestors allow its depth. */
  ghost predicate StaysAllowed(r: Redactor, db: Db, c: Call) {
    c.Create? && Protocol.Create(db, r, c.task, c.actor, c.key).db != db && c.task.lineage.parent.Some? ==>
      Allows(db, c.task.lineage.parent.value)
  }

  lemma CreatedParent(r: Redactor, db: Db, t: ChildTask, actor: Name, key: Option<string>)
    requires Good(r, db) && Idempotent(r) && FreshTask(t) && t.status == Pending && StoreNew(db, r, t, actor, key).out.Ok?
    ensures StoreNew(db, r, t, actor, key).out.value.lineage.parent == t.lineage.parent
  {
    hide *;
    StoreNewUnfold(db, r, t, actor, key);
    StoredFacts(r, db, t);
  }

  lemma CreateDepths(r: Redactor, db: Db, t: ChildTask, actor: Name, key: Option<string>)
    requires Idempotent(r) && Good(r, db) && FreshTask(t) && LineageOrdered(db) && DepthsRespected(db)
    ensures var c := Protocol.Create(db, r, t, actor, key);
      DepthsRespected(c.db) <==> (c.db != db && t.lineage.parent.Some? ==> Allows(db, t.lineage.parent.value))
  {
    hide *;
    var c := Protocol.Create(db, r, t, actor, key);
    CreateIsNew(db, r, t, actor, key);
    if c.db != db {
      CreateShape(r, db, t, actor, key);
      CreateSafe(r, db, t, actor, key);
      SafeTasks(r, db, c.db);
      NewLineage(r, db, t, actor, key);
      CreatedParent(r, db, t, actor, key);
      AddedRespects(db, c.db, c.out.value);
    }
  }

  /** A call keeps every depth within what all ancestors allow if and only if it does not
      create a task that the ancestors of its parent do not allow. */
  lemma StepDepths(r: Redactor, db: Db, c: Call)
    requires Idempotent(r) && Good(r, db) && Admissible(c) && LineageOrdered(db) && DepthsRespected(db)
    ensures DepthsRespected(Step(r, db, c)) <==> StaysAllowed(r, db, c)
  {
    hide Good, Idempotent, Safe, LineageOrdered, DepthsRespected, Allows, FreshTask, LaterTasks, Protocol.Create;
    if c.Create? {
      CreateDepths(r, db, c.task, c.actor, c.key);
    } else {
      hide Step;
      StepSafe(r, db, c);
      SafeTasks(r, db, Step(r, db, c));
      StepKeepsKeys(r, db, c);
      RespectedAfter(db, Step(r, db, c));
    }
  }

  ghost predicate AllStayAllowed(r: Redactor, calls: seq<Call>)
    decreases |calls|
  {
    calls != [] ==>
      && AllStayAllowed(r, calls[..|calls| - 1])
      && StaysAllowed(r, Run(r, EmptyDb, calls[..|calls| - 1]), Last(calls))
  }

  lemma NothingDeep()
    ensures DepthsRespected(EmptyDb)
  {}

  lemma StepBefore(r: Redactor, db: Db, c: Call)
    requires Idempotent(r) && Good(r, db) && Admissible(c) && LineageOrdered(db) && DepthsRespected(Step(r, db, c))
    ensures DepthsRespected(db)
  {
    hide *;
    StepSafe(r, db, c);
    SafeTasks(r, db, Step(r, db, c));
    RespectedBefore(db, Step(r, db, c));
  }

  /** Over every run: no task ever gets deeper than an ancestor allows if and only if every
      creation was allowed by all ancestors of its parent at the time. */
  lemma {:induction false} RunDepths(r: Redactor, calls: seq<Call>)
    requires Idempotent(r) && AllAdmissible(calls)
    ensures DepthsRespected(Run(r, EmptyDb, calls)) <==> AllStayAllowed(r, calls)
    decreases |calls|
  {
    if calls == [] {
      NothingDeep();
    } else {
      var n := |calls| - 1;
      var before := Run(r, EmptyDb, calls[..n]);
      assert AllAdmissible(calls[..n]) && Admissible(calls[n]) by { hide Admissible; assert Admissible(calls[n]); }
      assert Run(r, EmptyDb, calls) == Step(r, before, calls[n]) by { hide Step; }
      hide Idempotent, Good, AllAdmissible, Admissible, Run, Step, DepthsRespected, StaysAllowed, LineageOrdered;
      RunKeepsLineage(r, calls[..n]);
      RunDepths(r, calls[..n]);
      if DepthsRespected(Step(r, before, calls[n])) { StepBefore(r, before, calls[n]); }
      if DepthsRespected(before) { StepDepths(r, before, calls[n]); }
    }
  }

  // ----- A rule callers can follow -----

  /** No task allows more depth than its parent. */
  ghost predicate Narrowing(db: Db) {
    forall id :: id in db.tasks && Parent(db, id).Some? && Parent(db, id).value in db.tasks ==>
      Allowance(db, id) <= Allowance(db, Parent(db, id).value)
  }

  lemma {:induction false} NarrowChain(db: Db, id: Id, k: nat, a: Id)
    requires LineageOrdered(db) && Narrowing(db) && id in db.tasks && Ancestor(db, id, k) == Some(a)
    ensures a in db.tasks && Allowance(db, id) <= Allowance(db, a)
    decreases k
  {
    hide LineageOrdered, Ancestor;
    LineageUp(db, id);
    if k == 0 {
      AncestorSelf(db, id);
    } else {
      AncestorUp(db, id, k);
      NarrowChain(db, Parent(db, id).value, k - 1, a);
    }
  }

  lemma NarrowingRespects(db: Db)
    requires LineageOrdered(db) && Narrowing(db)
    ensures DepthsRespected(db)
  {
    hide LineageOrdered, Narrowing, Ancestor;
    forall id, k: nat, a | id in db.tasks && k > 0 && Ancestor(db, id, k) == Some(a) && a in db.tasks
      ensures Depth(db, id) <= Allowance(db, a)
    {
      LineageUp(db, id);
      AncestorUp(db, id, k);
      NarrowChain(db, Parent(db, id).value, k - 1, a);
    }
  }

  /** In every run in which no task allows more depth than its parent, every task is within
      the depth that each of its ancestors allows. */
  lemma NarrowRunsRespect(r: Redactor, calls: seq<Call>, id: Id, k: nat, a: Id)
    requires Idempotent(r) && AllAdmissible(calls) && Narrowing(Run(r, EmptyDb, calls))
    requires id in Run(r, EmptyDb, calls).tasks && k > 0 && Ancestor(Run(r, EmptyDb, calls), id, k) == Some(a)
    ensures var db := Run(r, EmptyDb, calls); a in db.tasks && Depth(db, id) <= Allowance(db, a)
  {
    hide Idempotent, AllAdmissible, Run, Good, LineageOrdered, Narrowing, Depth, Allowance, Ancestor;
    RunKeepsLineage(r, calls);
    NarrowChain(Run(r, EmptyDb, calls), id, k, a);
    NarrowingRespects(Run(r, EmptyDb, calls));
  }

  // ----- A run that goes deeper than its top allows -----

  const HOST := Authority(WORK.capabilities, [], [], [], [], ["local"], [HostWorkspace], 3)
  const POLICY := Policy(3, 10)

  function Work(allowance: nat): Spec {
    WORK.(role := Orchestrator, maxDepth := allowance)
  }

  function Ask(allowance: nat, parent: Option<Id>): Delegated {
    Delegated(Work(allowance), parent, [], Null, false, true)
  }

  const TOP := NewTask("g", Ask(2, None), Lineage(None, None, 1), 0)
  const MIDDLE := NewTask("p", Ask(3, Some("g")), Lineage(Some("g"), Some("g"), 2), 0)
  const BOTTOM := NewTask("c", Ask(3, Some("p")), Lineage(Some("p"), Some("g"), 3), 0)

  function WithTask(db: Db, t: ChildTask): Db {
    Insert(db, t.(status := Ready), None, EventRow(Created, ACTOR, None, 0))
  }

  function First(): Db {
    WithTask(EmptyDb, TOP)
  }

  function Second(): Db {
    WithTask(First(), MIDDLE)
  }

  function Third(): Db {
    WithTask(Second(), BOTTOM)
  }

  lemma PlainTask(t: ChildTask)
    requires t.spec == Work(t.spec.maxDepth) && t.deps == [] && t.links == Null && t.result == None && t.reason == None
    ensures RedactTask(PLAIN, t) == t
  {
    RedactNamesOfClean(PLAIN, []);
    assert RedactSpec(PLAIN, t.spec) == t.spec;
  }

  /** A task without dependencies whose lineage fits is stored READY. */
  lemma StoredReady(db: Db, t: ChildTask)
    requires t.spec == Work(t.spec.maxDepth) && t.deps == [] && t.links == Null && t.result == None && t.reason == None
    requires t.status == Pending && t.revision == 0 && !t.cancelRequested && t.createdAt == 0
    requires ValidateLineage(db, t).Ok? && t.id !in db.tasks
    ensures Protocol.Create(db, PLAIN, t, ACTOR, None) == Txn(WithTask(db, t), Ok(t.(status := Ready)))
  {
    PlainTask(t.(status := Ready));
    assert InitialState(db, t) == Ok(t.(status := Ready));
    assert FirstMissing(db, t.deps).None?;
    hide RedactTask, InitialState, FirstMissing, ValidateLineage, Protocol.Create, StoreNew, Insert;
    CreatePaths(db, PLAIN, t, ACTOR, None);
    StoreNewPaths(db, PLAIN, t, ACTOR, None);
  }

  lemma HostAllows(allowance: nat)
    requires allowance <= 3
    ensures ValidateAuthority(Work(allowance), HOST).Ok?
    ensures forall above: nat :: ValidateAuthority(Work(allowance), AuthorityOf(Work(above))).Ok?
  {
    CapabilitiesOrder(WORK.capabilities, WORK.capabilities, WORK.capabilities);
    forall above: nat ensures ValidateAuthority(Work(allowance), AuthorityOf(Work(above))).Ok? {
      WithinExactly(Work(allowance), Work(above));
    }
  }

  lemma FewActive(db: Db)
    requires db.tasks.Keys <= {"g", "p"}
    ensures |Active(db)| < 10
  {
    assert |{"g", "p"}| <= 2 by { assert {"g", "p"} == {"g"} + {"p"}; }
    CardinalityOfSubset(Active(db), {"g", "p"});
  }

  lemma Prepared(db: Db, parent: Option<Id>, allowance: nat, id: Id, lineage: Lineage)
    requires db.tasks.Keys <= {"g", "p"} && allowance <= 3 && lineage.depth <= 3
    requires LineageUnder(db, parent) == Outcome<Lineage>.Ok(lineage)
    requires parent.Some? ==> parent.value in db.tasks && exists above: nat :: db.tasks[parent.value].snapshot.spec == Work(above)
    ensures Prepare(db, POLICY, Ask(allowance, parent), HOST, id, 0) == Outcome<ChildTask>.Ok(NewTask(id, Ask(allowance, parent), lineage, 0))
    ensures PassesDelegate(db, NewTask(id, Ask(allowance, parent), lineage, 0))
  {
    HostAllows(allowance);
    FewActive(db);
    hide ValidateAuthority, LineageUnder, Active;
    assert Prepare(db, POLICY, Ask(allowance, parent), HOST, id, 0) == Outcome<ChildTask>.Ok(NewTask(id, Ask(allowance, parent), lineage, 0));
  }

  lemma TopPasses()
    ensures PassesDelegate(EmptyDb, TOP) && Protocol.Create(EmptyDb, PLAIN, TOP, ACTOR, None).db == First()
  {
    hide PassesDelegate, Protocol.Create, Prepare;
    Prepared(EmptyDb, None, 2, "g", Lineage(None, None, 1));
    StoredReady(EmptyDb, TOP);
  }

  lemma MiddlePasses()
    ensures PassesDelegate(First(), MIDDLE) && Protocol.Create(First(), PLAIN, MIDDLE, ACTOR, None).db == Second()
  {
    assert "g"[0] != "p"[0];
    assert First().tasks.Keys <= {"g", "p"} && First().tasks["g"].snapshot.spec == Work(2);
    hide PassesDelegate, Protocol.Create, Prepare;
    Prepared(First(), Some("g"), 3, "p", Lineage(Some("g"), Some("g"), 2));
    StoredReady(First(), MIDDLE);
  }

  lemma BottomPasses()
    ensures PassesDelegate(Second(), BOTTOM) && Protocol.Create(Second(), PLAIN, BOTTOM, ACTOR, None).db == Third()
  {
    assert "g"[0] != "p"[0] && "c"[0] != "p"[0] && "c"[0] != "g"[0];
    assert Second().tasks.Keys <= {"g", "p"} && Second().tasks["p"].snapshot.spec == Work(3);
    hide PassesDelegate, Protocol.Create, Prepare;
    Prepared(Second(), Some("p"), 3, "c", Lineage(Some("p"), Some("g"), 3));
    StoredReady(Second(), BOTTOM);
  }

  const DESCENT: seq<Call> :=
    [Call.Create(TOP, ACTOR, None), Call.Create(MIDDLE, ACTOR, None), Call.Create(BOTTOM, ACTOR, None)]

  lemma CreateStep(db: Db, t: ChildTask)
    ensures Step(PLAIN, db, Call.Create(t, ACTOR, None)) == Protocol.Create(db, PLAIN, t, ACTOR, None).db
  {
    hide Protocol.Create;
  }

  lemma AsksFresh()
    ensures Admissible(Call.Create(TOP, ACTOR, None)) && Admissible(Call.Create(MIDDLE, ACTOR, None))
    ensures Admissible(Call.Create(BOTTOM, ACTOR, None))
  {}

  lemma DescentSplit()
    ensures |DESCENT| == 3 && DESCENT[..0] == [] && DESCENT[..1] == [] + [Call.Create(TOP, ACTOR, None)]
    ensures DESCENT[..2] == DESCENT[..1] + [Call.Create(MIDDLE, ACTOR, None)]
    ensures DESCENT == DESCENT[..2] + [Call.Create(BOTTOM, ACTOR, None)]
  {}

  lemma NothingAdmissible()
    ensures AllAdmissible([])
  {}

  lemma DescentRuns()
    ensures DESCENT[..0] == [] && |DESCENT| == 3 && AllAdmissible(DESCENT)
    ensures Run(PLAIN, EmptyDb, DESCENT[..1]) == First() && Run(PLAIN, EmptyDb, DESCENT[..2]) == Second()
    ensures Run(PLAIN, EmptyDb, DESCENT) == Third()
  {
    DescentSplit();
    hide *;
    TopPasses();
    MiddlePasses();
    BottomPasses();
    AsksFresh();
    NothingAdmissible();
    NothingRun(PLAIN, EmptyDb);
    CreateStep(EmptyDb, TOP);
    LastStep([], Call.Create(TOP, ACTOR, None));
    CreateStep(First(), MIDDLE);
    LastStep(DESCENT[..1], Call.Create(MIDDLE, ACTOR, None));
    CreateStep(Second(), BOTTOM);
    LastStep(DESCENT[..2], Call.Create(BOTTOM, ACTOR, None));
  }

  lemma DescentDelegated()
    ensures AllDelegated(PLAIN, DESCENT)
  {
    DescentRuns();
    TopPasses();
    MiddlePasses();
    BottomPasses();
    hide PassesDelegate, Run, First, Second, Third, Protocol.Create;
    assert Run(PLAIN, EmptyDb, DESCENT[..0]) == EmptyDb by { NothingRun(PLAIN, EmptyDb); }
    forall i | 0 <= i < |DESCENT| && DESCENT[i].Create?
      ensures exists j :: 0 <= j <= i && PassesDelegate(Run(PLAIN, EmptyDb, DESCENT[..j]), DESCENT[i].task)
    {
      assert PassesDelegate(Run(PLAIN, EmptyDb, DESCENT[..i]), DESCENT[i].task);
    }
  }

  lemma NothingRun(r: Redactor, db: Db)
    ensures Run(r, db, []) == db
  {}

  lemma BottomTooDeep()
    ensures var db := Third();
      && "c" in db.tasks && "g" in db.tasks && Ancestor(db, "c", 2) == Some("g")
      && Depth(db, "c") == 3 && Allowance(db, "g") == 2
  {
    assert "g"[0] != "p"[0] && "c"[0] != "p"[0] && "c"[0] != "g"[0];
    var db := Third();
    assert Parent(db, "c") == Some("p") && Parent(db, "p") == Some("g");
    assert Ancestor(db, "g", 0) == Some("g");
    assert Ancestor(db, "p", 1) == Some("g");
  }

  /** A run of three creations, each of a task that passes `delegate`: the last one is at depth
      3 below a task that allows depth 2. */
  lemma GrandparentDepthIgnored()
    ensures AllAdmissible(DESCENT) && AllDelegated(PLAIN, DESCENT)
    ensures var db := Run(PLAIN, EmptyDb, DESCENT);
      && "c" in db.tasks && "g" in db.tasks && Ancestor(db, "c", 2) == Some("g")
      && Depth(db, "c") == 3 && Allowance(db, "g") == 2 && !DepthsRespected(db)
  {
    hide AllDelegated, AllAdmissible, Run, Third, First, Second, Ancestor;
    DescentRuns();
    DescentDelegated();
    BottomTooDeep();
  }
}

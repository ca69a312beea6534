/**
 Delegation: what a parent may hand down, and what that means along whole chains of
 parents.  Only what is stored counts: a task keeps the specification and the lineage
 it was created with, so a check made before another caller's writes still holds after.
 */
module Delegation {
  import opened Basics
  import opened Redaction
  import opened ChildModels
  import opened Tables
  import opened Protocol
  import opened Invariants
  import opened Growth
  import opened Steps
  import opened Transactions
  import opened Runs
  import opened Footprints
  import opened Cancellation
  import opened ChildTaskStores

  // ----- Authority -----

  datatype Authority = Authority(
    capabilities: Capabilities, toolNames: seq<string>, skillNames: seq<string>, mcpLabels: seq<string>,
    modelProfiles: seq<string>, backends: seq<string>, workspaces: seq<WorkspaceMode>, maxDepth: nat)

  function FileRank(f: FileAccess): nat {
    match f
    case FilesOff => 0
    case FilesRead => 1
    case FilesWrite => 2
  }

  function MemoryRank(m: MemoryMode): nat {
    match m
    case MemoryOff => 0
    case MemoryReadOnly => 1
    case MemoryManual => 2
    case MemoryAutomatic => 3
  }

  predicate CapabilitiesWithin(child: Capabilities, parent: Capabilities) {
    && FileRank(child.files) <= FileRank(parent.files)
    && MemoryRank(child.memory) <= MemoryRank(parent.memory)
    && (child.shell ==> parent.shell)
    && (child.network ==> parent.network)
    && (child.externalServices ==> parent.externalServices)
    && (child.utilities ==> parent.utilities)
  }

  /** Being within is a partial order on capabilities, with everything off at its bottom and
      everything allowed at its top. */
  lemma CapabilitiesOrder(a: Capabilities, b: Capabilities, c: Capabilities)
    ensures CapabilitiesWithin(Capabilities(FilesOff, false, MemoryOff, false, false, false), a)
    ensures CapabilitiesWithin(a, Capabilities(FilesWrite, true, MemoryAutomatic, true, true, true))
    ensures CapabilitiesWithin(a, a)
    ensures CapabilitiesWithin(a, b) && CapabilitiesWithin(b, a) ==> a == b
    ensures CapabilitiesWithin(a, b) && CapabilitiesWithin(b, c) ==> CapabilitiesWithin(a, c)
  {
    if CapabilitiesWithin(a, b) && CapabilitiesWithin(b, a) {
      assert a.files == b.files by { RankDecidesFiles(a.files, b.files); }
      assert a.memory == b.memory by { RankDecidesMemory(a.memory, b.memory); }
    }
  }

  lemma RankDecidesFiles(a: FileAccess, b: FileAccess)
    ensures FileRank(a) == FileRank(b) <==> a == b
  {
    match a { case FilesOff => case FilesRead => case FilesWrite => }
  }

  lemma RankDecidesMemory(a: MemoryMode, b: MemoryMode)
    ensures MemoryRank(a) == MemoryRank(b) <==> a == b
  {
    match a { case MemoryOff => case MemoryReadOnly => case MemoryManual => case MemoryAutomatic => }
  }

  /** What being within means for each capability, without ranks. */
  ghost predicate Contained(child: Capabilities, parent: Capabilities) {
    && (parent.files == FilesOff ==> child.files == FilesOff)
    && (parent.files == FilesRead ==> child.files != FilesWrite)
    && (parent.memory == MemoryOff ==> child.memory == MemoryOff)
    && (parent.memory == MemoryReadOnly ==> child.memory in {MemoryOff, MemoryReadOnly})
    && (parent.memory == MemoryManual ==> child.memory != MemoryAutomatic)
    && (!parent.shell ==> !child.shell) && (!parent.network ==> !child.network)
    && (!parent.externalServices ==> !child.externalServices) && (!parent.utilities ==> !child.utilities)
  }

  /** The ranks say just that. */
  lemma CapabilitiesExactly(child: Capabilities, parent: Capabilities)
    ensures CapabilitiesWithin(child, parent) <==> Contained(child, parent)
  {
    match child.files { case FilesOff => case FilesRead => case FilesWrite => }
    match child.memory { case MemoryOff => case MemoryReadOnly => case MemoryManual => case MemoryAutomatic => }
  }

  predicate Among(requested: seq<string>, allowed: seq<string>) {
    forall x :: x in requested ==> x in allowed
  }

  function ValidateAuthority(spec: Spec, a: Authority): Outcome<()> {
    if !CapabilitiesWithin(spec.capabilities, a.capabilities) then Err(InvalidValue)
    else if !Among(spec.toolNames, a.toolNames) then Err(InvalidValue)
    else if !Among(spec.skillNames, a.skillNames) then Err(InvalidValue)
    else if !Among(spec.mcpLabels, a.mcpLabels) then Err(InvalidValue)
    else if spec.modelProfile.Some? && spec.modelProfile.value !in a.modelProfiles then Err(InvalidValue)
    else if spec.backend !in a.backends then Err(InvalidValue)
    else if spec.workspace !in a.workspaces then Err(InvalidValue)
    else Ok(())
  }

  /** A request passes exactly when each field of it is among what the authority allows. */
  lemma AuthorityExactly(spec: Spec, a: Authority)
    ensures ValidateAuthority(spec, a).Ok? <==>
      && Contained(spec.capabilities, a.capabilities)
      && (forall x :: x in spec.toolNames ==> x in a.toolNames)
      && (forall x :: x in spec.skillNames ==> x in a.skillNames)
      && (forall x :: x in spec.mcpLabels ==> x in a.mcpLabels)
      && (spec.modelProfile.Some? ==> spec.modelProfile.value in a.modelProfiles)
      && spec.backend in a.backends && spec.workspace in a.workspaces
  {
    CapabilitiesExactly(spec.capabilities, a.capabilities);
    hide CapabilitiesWithin, Contained;
  }

  /** The authority a stored parent can pass on. */
  function AuthorityOf(spec: Spec): Authority {
    Authority(spec.capabilities, spec.toolNames, spec.skillNames, spec.mcpLabels,
              if spec.modelProfile.Some? then [spec.modelProfile.value] else [],
              [spec.backend], [spec.workspace], spec.maxDepth)
  }

  /** Nothing in the child's specification reaches beyond the parent's. */
  ghost predicate Within(child: Spec, parent: Spec) {
    && Contained(child.capabilities, parent.capabilities)
    && Among(child.toolNames, parent.toolNames) && Among(child.skillNames, parent.skillNames)
    && Among(child.mcpLabels, parent.mcpLabels)
    && (child.modelProfile.Some? ==> child.modelProfile == parent.modelProfile)
    && child.backend == parent.backend && child.workspace == parent.workspace
  }

  lemma WithinExactly(child: Spec, parent: Spec)
    ensures ValidateAuthority(child, AuthorityOf(parent)).Ok? <==> Within(child, parent)
  {
    AuthorityExactly(child, AuthorityOf(parent));
    hide ValidateAuthority, Contained;
  }

  lemma WithinTrans(a: Spec, b: Spec, c: Spec)
    requires Within(a, b) && Within(b, c)
    ensures Within(a, c)
  {
    CapabilitiesOrder(a.capabilities, b.capabilities, c.capabilities);
    CapabilitiesExactly(a.capabilities, b.capabilities);
    CapabilitiesExactly(b.capabilities, c.capabilities);
    CapabilitiesExactly(a.capabilities, c.capabilities);
    hide Contained, CapabilitiesWithin;
  }

  // ----- delegate -----

  datatype Policy = Policy(maxDepth: nat, maxActive: nat)

  /** What a caller asks for; `transcript` says that the context carries a parent transcript
      under one of the forbidden keys, and `schemaOk` that the result schema is well formed. */
  datatype Delegated = Delegated(
    spec: Spec, parent: Option<Id>, deps: seq<Id>, links: Json, transcript: bool, schemaOk: bool)

  function LineageUnder(db: Db, parent: Option<Id>): Outcome<Lineage> {
    match parent
    case None => Ok(Lineage(None, None, 1))
    case Some(p) =>
      if p !in db.tasks then Err(NotFound(p))
      else
        var above := db.tasks[p].snapshot.lineage;
        Ok(Lineage(Some(p), Some(if above.root.Some? then above.root.value else p), above.depth + 1))
  }

  function Min(a: nat, b: nat): nat {
    if a <= b then a else b
  }

  function Active(db: Db): set<Id> {
    WithStatus(db, {Pending, Ready, Running, Waiting, Blocked})
  }

  function NewTask(id: Id, d: Delegated, lineage: Lineage, now: int): ChildTask {
    ChildTask(id, d.spec, lineage, Unique(d.deps), d.links, Pending, 0, 0, false, None, None, now, now, None)
  }

  /** The checks of `delegate`, in order, and the task it passes to `create`. */
  function Prepare(db: Db, policy: Policy, d: Delegated, a: Authority, id: Id, now: int): Outcome<ChildTask> {
    if d.transcript || !d.schemaOk then Err(InvalidValue)
    else if ValidateAuthority(d.spec, a).Err? then Err(InvalidValue)
    else
      match LineageUnder(db, d.parent)
      case Err(e) => Err(e)
      case Ok(lineage) =>
        if lineage.depth > Min(policy.maxDepth, a.maxDepth) then Err(InvalidValue)
        else if d.spec.maxDepth > Min(policy.maxDepth, a.maxDepth) then Err(InvalidValue)
        else if d.parent.Some? && d.parent.value in db.tasks
                && ValidateAuthority(d.spec, AuthorityOf(db.tasks[d.parent.value].snapshot.spec)).Err? then Err(InvalidValue)
        else if id !in db.tasks && |Active(db)| >= policy.maxActive then Err(InvalidValue)
        else Ok(NewTask(id, d, lineage, now))
  }

  /** Exactly when `delegate` passes a task on: the request is well formed, the host and the
      parent, which must exist, allow every field of it, and neither the depth nor the number
      of active tasks exceeds a limit. */
  lemma PrepareExactly(db: Db, policy: Policy, d: Delegated, a: Authority, id: Id, now: int)
    ensures Prepare(db, policy, d, a, id, now).Ok? <==>
      && !d.transcript && d.schemaOk && ValidateAuthority(d.spec, a).Ok?
      && (d.parent.Some? ==> d.parent.value in db.tasks && Within(d.spec, db.tasks[d.parent.value].snapshot.spec))
      && d.spec.maxDepth <= policy.maxDepth && d.spec.maxDepth <= a.maxDepth
      && (var depth := if d.parent.None? then 1 else db.tasks[d.parent.value].snapshot.lineage.depth + 1;
          depth <= policy.maxDepth && depth <= a.maxDepth)
      && (id in db.tasks
          || |set k | k in db.tasks && db.tasks[k].status in {Pending, Ready, Running, Waiting, Blocked}| < policy.maxActive)
    ensures d.parent.Some? && Prepare(db, policy, d, a, id, now) == Err(NotFound(d.parent.value)) ==> d.parent.value !in db.tasks
  {
    if d.parent.Some? && d.parent.value in db.tasks { WithinExactly(d.spec, db.tasks[d.parent.value].snapshot.spec); }
    assert Active(db) == set k | k in db.tasks && db.tasks[k].status in {Pending, Ready, Running, Waiting, Blocked};
    hide ValidateAuthority, Within, Active;
  }

  class DelegationService {
    const store: ChildTaskStore
    const policy: Policy

    constructor (s: ChildTaskStore, p: Policy)
      ensures store == s && policy == p
    {
      store, policy := s, p;
    }

    /** Check the request against the host's and the parent's authority, then create the task. */
    method Delegate(d: Delegated, a: Authority, actor: Name, key: Option<string>, id: Id, now: int) returns (out: Outcome<ChildTask>)
      requires store.Valid()
      modifies store
      ensures store.Valid()
      ensures var prepared := Prepare(old(store.Tables()), policy, d, a, id, now);
        Txn(store.Tables(), out) ==
          if prepared.Err? then Txn(old(store.Tables()), Err(prepared.error))
          else Protocol.Create(old(store.Tables()), store.redactor, prepared.value, actor, key)
    {
      hide Idempotent, Good, ValidateAuthority, Protocol.Create;
      if d.transcript || !d.schemaOk || ValidateAuthority(d.spec, a).Err? {
        return Err(InvalidValue);
      }
      var db := store.Tables();
      var lineage := LineageUnder(db, d.parent);
      if lineage.Err? {
        return Err(lineage.error);
      }
      if lineage.value.depth > Min(policy.maxDepth, a.maxDepth) || d.spec.maxDepth > Min(policy.maxDepth, a.maxDepth) {
        return Err(InvalidValue);
      }
      if d.parent.Some? && ValidateAuthority(d.spec, AuthorityOf(db.tasks[d.parent.value].snapshot.spec)).Err? {
        return Err(InvalidValue);
      }
      if id !in db.tasks && |Active(db)| >= policy.maxActive {
        return Err(InvalidValue);
      }
      var task := NewTask(id, d, lineage.value, now);
      NewTaskFresh(id, d, lineage.value, now);
      out := store.Create(task, actor, key);
    }
  }

  lemma NewTaskFresh(id: Id, d: Delegated, lineage: Lineage, now: int)
    requires lineage.parent.None? ==> lineage.depth == 1
    ensures FreshTask(NewTask(id, d, lineage, now))
  {}

  // ----- Lineage, whoever creates the tasks -----

  /** Depth, root and role are those of the chain, and the depth is one the parent and the
      task itself allow. */
  predicate LineageFits(db: Db, t: ChildTask) {
    match t.lineage.parent
    case None => t.lineage.depth == 1 && t.lineage.root in {None, Some(t.id)}
    case Some(p) =>
      && p in db.tasks
      && var above := db.tasks[p].snapshot;
      && t.lineage.depth == above.lineage.depth + 1
      && t.lineage.root == Some(if above.lineage.root.Some? then above.lineage.root.value else p)
      && above.spec.role == Orchestrator
      && t.lineage.depth <= above.spec.maxDepth && t.lineage.depth <= t.spec.maxDepth
  }

  /** What `create` checks of a lineage: that it fits, under a parent that takes children. */
  lemma LineageExactly(db: Db, t: ChildTask)
    requires t.lineage.parent.None? ==> t.lineage.depth == 1
    requires forall id :: id in db.tasks ==> db.tasks[id].snapshot.id == id
    ensures ValidateLineage(db, t).Ok? <==>
      LineageFits(db, t) && (t.lineage.parent.Some? ==> TakesChildren(db, t.lineage.parent.value))
  {}

  ghost predicate LineageOrdered(db: Db) {
    forall id :: id in db.tasks ==> LineageFits(db, db.tasks[id].snapshot)
  }

  lemma SpecsKept(db: Db, db': Db, id: Id)
    requires LaterTasks(db, db') && id in db.tasks
    ensures id in db'.tasks && db'.tasks[id].snapshot.spec == db.tasks[id].snapshot.spec
    ensures db'.tasks[id].snapshot.lineage == db.tasks[id].snapshot.lineage && db'.tasks[id].snapshot.id == db.tasks[id].snapshot.id
  {
    assert LaterRow(db.tasks[id], db'.tasks[id]);
  }

  lemma LineageLater(db: Db, db': Db, t: ChildTask, u: ChildTask)
    requires LineageFits(db, t) && LaterTasks(db, db')
    requires u.lineage == t.lineage && u.spec == t.spec && u.id == t.id
    ensures LineageFits(db', u)
  {
    if t.lineage.parent.Some? { SpecsKept(db, db', t.lineage.parent.value); }
    hide LaterTasks;
  }

  lemma IdsInRows(r: Redactor, db: Db)
    requires Good(r, db)
    ensures forall id :: id in db.tasks ==> db.tasks[id].snapshot.id == id
  {
    hide Good;
    forall id | id in db.tasks ensures db.tasks[id].snapshot.id == id { RowFacts(r, db, id); }
  }

  lemma RowClean(r: Redactor, db: Db, id: Id)
    requires Good(r, db) && id in db.tasks
    ensures r.text(id) == id
    ensures db.tasks[id].snapshot.lineage.root.Some? ==>
      r.text(db.tasks[id].snapshot.lineage.root.value) == db.tasks[id].snapshot.lineage.root.value
    ensures RedactSpec(r, db.tasks[id].snapshot.spec) == db.tasks[id].snapshot.spec
  {
    hide Good;
    RowFacts(r, db, id);
    hide RedactSpec;
  }

  lemma RedactTaskParts(r: Redactor, t: ChildTask)
    ensures var u := RedactTask(r, t);
      && u.spec == RedactSpec(r, t.spec) && u.lineage == RedactLineage(r, t.lineage) && u.id == r.text(t.id)
      && u.spec.role == t.spec.role && u.spec.maxDepth == t.spec.maxDepth
  {}

  /** Redaction leaves a lineage as it is, up to the name of the task itself. */
  lemma StoredLineage(r: Redactor, db: Db, t: ChildTask)
    requires Good(r, db) && LineageFits(db, t)
    ensures LineageFits(db, RedactTask(r, t))
  {
    RedactTaskParts(r, t);
    hide Good, RedactTask, RedactSpec;
    if t.lineage.parent.Some? { RowClean(r, db, t.lineage.parent.value); }
  }

  lemma InitialLineage(db: Db, t: ChildTask)
    requires t.status == Pending && InitialState(db, t).Ok? && LineageFits(db, t)
    ensures var i := InitialState(db, t).value;
      LineageFits(db, i) && i.lineage == t.lineage && i.spec == t.spec && i.id == t.id
  {
    InitialStateFacts(db, t);
    hide InitialState;
  }

  lemma NewLineage(r: Redactor, db: Db, t: ChildTask, actor: Name, key: Option<string>)
    requires Good(r, db) && FreshTask(t) && t.status == Pending && StoreNew(db, r, t, actor, key).out.Ok?
    ensures LineageFits(db, StoreNew(db, r, t, actor, key).out.value)
  {
    assert t.lineage.parent.None? ==> t.lineage.depth == 1;
    hide *;
    StoreNewUnfold(db, r, t, actor, key);
    IdsInRows(r, db);
    LineageExactly(db, t);
    InitialLineage(db, t);
    StoredLineage(r, db, InitialState(db, t).value);
  }

  lemma LineageAdded(db: Db, db': Db, t: ChildTask)
    requires LineageOrdered(db) && LaterTasks(db, db') && Added(db, db', t) && LineageFits(db, t)
    ensures LineageOrdered(db')
  {
    hide LaterTasks, DepsCompleted, DeadDeps, LineageFits;
    forall id | id in db'.tasks ensures LineageFits(db', db'.tasks[id].snapshot) {
      assert id in db'.tasks.Keys;
      var u := if id == t.id then t else db.tasks[id].snapshot;
      assert LineageFits(db, u);
      LineageLater(db, db', u, u);
    }
  }

  lemma LineageKept(db: Db, db': Db)
    requires LineageOrdered(db) && LaterTasks(db, db') && db'.tasks.Keys == db.tasks.Keys
    ensures LineageOrdered(db')
  {
    hide LaterTasks, LineageFits;
    forall id | id in db'.tasks ensures LineageFits(db', db'.tasks[id].snapshot) {
      assert id in db.tasks.Keys;
      SpecsKept(db, db', id);
      LineageLater(db, db', db.tasks[id].snapshot, db'.tasks[id].snapshot);
    }
  }

  lemma StepKeepsLineage(r: Redactor, db: Db, c: Call)
    requires Idempotent(r) && Good(r, db) && Admissible(c) && LineageOrdered(db)
    ensures LineageOrdered(Step(r, db, c))
  {
    hide Good, Idempotent, Safe, LineageOrdered, FreshTask, LaterTasks, Moves, Added;
    var db' := Step(r, db, c);
    StepSafe(r, db, c);
    SafeTasks(r, db, db');
    if c.Create? {
      CreateKeepsLineage(r, db, c.task, c.actor, c.key);
    } else {
      StepKeepsKeys(r, db, c);
      LineageKept(db, db');
    }
  }

  lemma CreateKeepsLineage(r: Redactor, db: Db, t: ChildTask, actor: Name, key: Option<string>)
    requires Idempotent(r) && Good(r, db) && FreshTask(t) && LineageOrdered(db)
    ensures LineageOrdered(Protocol.Create(db, r, t, actor, key).db)
  {
    hide *;
    var c := Protocol.Create(db, r, t, actor, key);
    CreateIsNew(db, r, t, actor, key);
    if c.db != db {
      CreateShape(r, db, t, actor, key);
      CreateSafe(r, db, t, actor, key);
      SafeTasks(r, db, c.db);
      NewLineage(r, db, t, actor, key);
      LineageAdded(db, c.db, c.out.value);
    }
  }

  lemma NothingOrdered()
    ensures LineageOrdered(EmptyDb) && Ordered(EmptyDb)
  {}

  /** In every run, whoever creates the tasks, every lineage fits under its parent. */
  lemma {:induction false} RunKeepsLineage(r: Redactor, calls: seq<Call>)
    requires Idempotent(r) && AllAdmissible(calls)
    ensures LineageOrdered(Run(r, EmptyDb, calls)) && Good(r, Run(r, EmptyDb, calls))
    decreases |calls|
  {
    assert Good(r, EmptyDb) by { EmptyInv(); }
    if calls == [] {
      NothingOrdered();
    } else {
      var n := |calls| - 1;
      var before := Run(r, EmptyDb, calls[..n]);
      assert AllAdmissible(calls[..n]) && Admissible(calls[n]) by { hide Admissible; assert Admissible(calls[n]); }
      assert Run(r, EmptyDb, calls) == Step(r, before, calls[n]) by { hide Step; }
      hide *;
      RunKeepsLineage(r, calls[..n]);
      StepKeepsLineage(r, before, calls[n]);
      StepSafe(r, before, calls[n]);
      SafeGood(r, before, Step(r, before, calls[n]));
    }
  }

  lemma LineageUp(db: Db, id: Id)
    requires LineageOrdered(db) && id in db.tasks
    ensures LineageFits(db, db.tasks[id].snapshot)
  {}

  lemma AncestorUp(db: Db, id: Id, k: nat)
    requires k > 0 && id in db.tasks && Ancestor(db, id, k).Some?
    ensures Parent(db, id).Some? && Ancestor(db, id, k) == Ancestor(db, Parent(db, id).value, k - 1)
  {}

  lemma AncestorSelf(db: Db, id: Id)
    ensures Ancestor(db, id, 0) == Some(id)
  {}

  /** Along the whole chain every ancestor is an orchestrator, the depth counts the tasks from
      the top, and the root is the top. */
  lemma {:induction false} ChainLineage(r: Redactor, db: Db, id: Id, k: nat, a: Id)
    requires LineageOrdered(db) && Good(r, db) && id in db.tasks && Ancestor(db, id, k) == Some(a)
    ensures a in db.tasks
    ensures k > 0 ==> db.tasks[a].snapshot.spec.role == Orchestrator
    ensures db.tasks[id].snapshot.lineage.depth == db.tasks[a].snapshot.lineage.depth + k
    ensures Parent(db, a) == None ==>
      && db.tasks[id].snapshot.lineage.depth == k + 1
      && (k > 0 ==> db.tasks[id].snapshot.lineage.root == Some(a))
      && (db.tasks[id].snapshot.lineage.root.Some? ==> db.tasks[id].snapshot.lineage.root == Some(a))
    decreases k
  {
    hide LineageOrdered, Good, Ancestor;
    LineageUp(db, id);
    if k == 0 {
      AncestorSelf(db, id);
      RowNamed(r, db, id);
    } else {
      AncestorUp(db, id, k);
      var p := Parent(db, id).value;
      ChainLineage(r, db, p, k - 1, a);
      if k == 1 { AncestorSelf(db, p); }
    }
  }

  lemma RowNamed(r: Redactor, db: Db, id: Id)
    requires Good(r, db) && id in db.tasks
    ensures db.tasks[id].snapshot.id == id
  {
    hide Good;
    RowFacts(r, db, id);
  }

  /** For the whole of any run: depth, root and roles are those of the parent chain. */
  lemma LineageOverRuns(r: Redactor, calls: seq<Call>, id: Id, k: nat, a: Id)
    requires Idempotent(r) && AllAdmissible(calls)
    requires id in Run(r, EmptyDb, calls).tasks && Ancestor(Run(r, EmptyDb, calls), id, k) == Some(a)
    ensures var db := Run(r, EmptyDb, calls);
      && a in db.tasks && (k > 0 ==> db.tasks[a].snapshot.spec.role == Orchestrator)
      && (Parent(db, a) == None ==>
            && db.tasks[id].snapshot.lineage.depth == k + 1
            && (k > 0 ==> db.tasks[id].snapshot.lineage.root == Some(a)))
  {
    hide *;
    RunKeepsLineage(r, calls);
    ChainLineage(r, Run(r, EmptyDb, calls), id, k, a);
  }

  // ----- Authority, for tasks that come through delegate -----

  /** The specification stays within the parent's, as `delegate` checked. */
  ghost predicate FitsUnder(db: Db, t: ChildTask) {
    t.lineage.parent.Some? ==>
      t.lineage.parent.value in db.tasks && Within(t.spec, db.tasks[t.lineage.parent.value].snapshot.spec)
  }

  lemma PreparedFits(db: Db, policy: Policy, d: Delegated, a: Authority, id: Id, now: int)
    requires Prepare(db, policy, d, a, id, now).Ok?
    ensures var t := Prepare(db, policy, d, a, id, now).value;
      && t.id == id && t.spec == d.spec && t.links == d.links && t.status == Pending && t.createdAt == now
      && (forall x :: x in t.deps <==> x in d.deps) && NoDuplicates(t.deps)
      && FitsUnder(db, t) && t.lineage.parent == d.parent
      && (d.parent.None? ==> t.lineage.root == None && t.lineage.depth == 1)
      && (d.parent.Some? ==>
            var above := db.tasks[d.parent.value].snapshot.lineage;
            && t.lineage.depth == above.depth + 1
            && t.lineage.root == (if above.root.Some? then above.root else d.parent))
      && (var host, child := a.capabilities, t.spec.capabilities;
          && (host.files == FilesOff ==> child.files == FilesOff)
          && (host.files == FilesRead ==> child.files != FilesWrite)
          && Contained(child, host))
  {
    PrepareExactly(db, policy, d, a, id, now);
    AuthorityExactly(d.spec, a);
    hide ValidateAuthority, Within, Among, Active;
  }

  lemma FitsLater(db: Db, db': Db, t: ChildTask)
    requires FitsUnder(db, t) && LaterTasks(db, db')
    ensures FitsUnder(db', t)
  {
    if t.lineage.parent.Some? { assert LaterRow(db.tasks[t.lineage.parent.value], db'.tasks[t.lineage.parent.value]); }
  }

  /** Every stored task stays within its parent. */
  ghost predicate Ordered(db: Db) {
    forall id :: id in db.tasks ==> FitsUnder(db, db.tasks[id].snapshot)
  }

  lemma NamesStay(r: Redactor, child: seq<string>, parent: seq<string>)
    requires Among(child, parent) && RedactNames(r, parent) == parent
    ensures Among(RedactNames(r, child), parent)
  {
    forall x | x in RedactNames(r, child) ensures x in parent {
      var i :| 0 <= i < |child| && RedactEach(r, child)[i] == x;
      assert child[i] in parent;
      var j :| 0 <= j < |parent| && parent[j] == child[i];
      assert RedactEach(r, parent)[j] == x;
      assert x in RedactNames(r, parent);
    }
  }

  /** What redaction leaves of a specification within a stored one is still within it. */
  lemma RedactedSpecFits(r: Redactor, child: Spec, parent: Spec)
    requires Within(child, parent) && RedactSpec(r, parent) == parent
    ensures Within(RedactSpec(r, child), parent)
  {
    NamesStay(r, child.toolNames, parent.toolNames);
    NamesStay(r, child.skillNames, parent.skillNames);
    NamesStay(r, child.mcpLabels, parent.mcpLabels);
    hide RedactNames, Among;
  }

  lemma RedactedFits(r: Redactor, db: Db, t: ChildTask)
    requires Good(r, db) && FitsUnder(db, t)
    ensures FitsUnder(db, RedactTask(r, t))
  {
    RedactTaskParts(r, t);
    hide Good, RedactSpec, RedactTask, Within;
    if t.lineage.parent.Some? {
      RowClean(r, db, t.lineage.parent.value);
      RedactedSpecFits(r, t.spec, db.tasks[t.lineage.parent.value].snapshot.spec);
    }
  }

  lemma FitsSame(db: Db, t: ChildTask, u: ChildTask)
    requires FitsUnder(db, t) && u == t.(status := u.status, reason := u.reason)
    ensures FitsUnder(db, u)
  {}

  lemma NewFits(r: Redactor, db: Db, t: ChildTask, actor: Name, key: Option<string>)
    requires Good(r, db) && FitsUnder(db, t) && t.status == Pending && StoreNew(db, r, t, actor, key).out.Ok?
    ensures FitsUnder(db, StoreNew(db, r, t, actor, key).out.value)
  {
    hide *;
    StoreNewUnfold(db, r, t, actor, key);
    InitialStateFacts(db, t);
    FitsSame(db, t, InitialState(db, t).value);
    RedactedFits(r, db, InitialState(db, t).value);
  }

  lemma OrderedKept(db: Db, db': Db)
    requires Ordered(db) && LaterTasks(db, db') && db'.tasks.Keys == db.tasks.Keys
    ensures Ordered(db')
  {
    hide LaterTasks, Within;
    forall id | id in db'.tasks ensures FitsUnder(db', db'.tasks[id].snapshot) {
      assert id in db.tasks.Keys;
      SpecsKept(db, db', id);
      FitsLater(db, db', db.tasks[id].snapshot);
    }
  }

  lemma OrderedAdded(db: Db, db': Db, t: ChildTask)
    requires Ordered(db) && LaterTasks(db, db') && Added(db, db', t) && FitsUnder(db, t)
    ensures Ordered(db')
  {
    hide Within, LaterTasks, DepsCompleted, DeadDeps;
    forall id | id in db'.tasks ensures FitsUnder(db', db'.tasks[id].snapshot) {
      assert id in db'.tasks.Keys;
      var u := if id == t.id then t else db.tasks[id].snapshot;
      assert FitsUnder(db, u);
      FitsLater(db, db', u);
    }
  }

  /** `delegate` passes this task to `create`, for some request, authority and policy. */
  ghost predicate PassesDelegate(db: Db, t: ChildTask) {
    exists policy: Policy, d: Delegated, a: Authority, id: Id, now: int ::
      Prepare(db, policy, d, a, id, now) == Outcome<ChildTask>.Ok(t)
  }

  lemma PassedFits(db: Db, t: ChildTask)
    requires PassesDelegate(db, t)
    ensures FitsUnder(db, t)
  {
    hide Prepare, FitsUnder;
    var policy: Policy, d: Delegated, a: Authority, id: Id, now: int :|
      Prepare(db, policy, d, a, id, now) == Outcome<ChildTask>.Ok(t);
    PreparedFits(db, policy, d, a, id, now);
  }

  /** The tasks of a run all come through `delegate`: each passed its checks at some earlier
      state of the run, whatever happened in between. */
  ghost predicate AllDelegated(r: Redactor, calls: seq<Call>) {
    forall i :: 0 <= i < |calls| && calls[i].Create? ==>
      exists j :: 0 <= j <= i && PassesDelegate(Run(r, EmptyDb, calls[..j]), calls[i].task)
  }

  lemma StepKeepsOrder(r: Redactor, db: Db, c: Call)
    requires Idempotent(r) && Good(r, db) && Admissible(c) && Ordered(db)
    requires c.Create? ==> FitsUnder(db, c.task)
    ensures Ordered(Step(r, db, c))
  {
    hide Good, Idempotent, Safe, Ordered, FreshTask, LaterTasks, FitsUnder, Moves, Added;
    var db' := Step(r, db, c);
    StepSafe(r, db, c);
    SafeTasks(r, db, db');
    if c.Create? {
      CreateKeepsOrder(r, db, c.task, c.actor, c.key);
    } else {
      StepKeepsKeys(r, db, c);
      OrderedKept(db, db');
    }
  }

  lemma CreateKeepsOrder(r: Redactor, db: Db, t: ChildTask, actor: Name, key: Option<string>)
    requires Idempotent(r) && Good(r, db) && FreshTask(t) && Ordered(db) && FitsUnder(db, t)
    ensures Ordered(Protocol.Create(db, r, t, actor, key).db)
  {
    hide *;
    var c := Protocol.Create(db, r, t, actor, key);
    CreateIsNew(db, r, t, actor, key);
    if c.db != db {
      CreateShape(r, db, t, actor, key);
      CreateSafe(r, db, t, actor, key);
      SafeTasks(r, db, c.db);
      NewFits(r, db, t, actor, key);
      OrderedAdded(db, c.db, c.out.value);
    }
  }

  lemma CreateIsNew(db: Db, r: Redactor, t: ChildTask, actor: Name, key: Option<string>)
    ensures Protocol.Create(db, r, t, actor, key).db != db ==>
      t.status == Pending && Protocol.Create(db, r, t, actor, key) == StoreNew(db, r, t, actor, key)
  {
    hide StoreNew, RedactTask, TaskAt;
  }

  lemma StepKeepsKeys(r: Redactor, db: Db, c: Call)
    requires Good(r, db) && !c.Create?
    ensures Step(r, db, c).tasks.Keys == db.tasks.Keys
  {
    hide Good, ExpireDeadline, Protocol.Start, Protocol.Heartbeat, Protocol.Finish, RequestCancel, Protocol.Retry;
    hide RecoverExpired, Protocol.ClaimDelivery, Protocol.FinishDelivery;
    match c
    case Expire(id, expected, actor, now) => KeysOfExpire(r, db, id, expected, actor, now);
    case Start(id, expected, worker, seconds, now) => KeysOfStart(r, db, id, expected, worker, seconds, now);
    case Heartbeat(t, seconds, now) => KeysOfHeartbeat(db, t, seconds, now);
    case Finish(t, status, result, note, actor, now) => KeysOfFinish(r, db, t, status, result, note, actor, now);
    case Cancel(id, expected, actor, reason, now) => ShapeLineage(r, db, id, expected, actor, reason, now);
    case Retry(id, expected, actor, now) => KeysOfRetry(r, db, id, expected, actor, now);
    case Recover(actor, now) => KeysOfRecover(r, db, actor, now);
    case ClaimDelivery(worker, seconds, now) => DeliveryMoves(db, worker, seconds, DeliveryTicket(("", 0), 0), false, None, now);
    case FinishDelivery(t, delivered, error, now) => DeliveryMoves(db, "w", 1, t, delivered, error, now);
  }

  lemma KeysOfExpire(r: Redactor, db: Db, id: Id, expected: nat, actor: Name, now: int)
    requires Good(r, db)
    ensures ExpireDeadline(db, r, id, expected, actor, now).db.tasks.Keys == db.tasks.Keys
  {
    hide Good, EndShape, ExpireDeadline, ExpiredTask;
    ExpireUnfold(db, r, id, expected, actor, now);
    if ExpireDeadline(db, r, id, expected, actor, now).out == Ok(true) {
      ExpireShape(r, db, id, expected, actor, now);
      ShapeKeys(db, ExpireDeadline(db, r, id, expected, actor, now).db, ExpiredTask(db, r, id, now));
    }
  }

  lemma ShapeKeys(db: Db, db': Db, t: ChildTask)
    requires EndShape(db, db', t)
    ensures db'.tasks.Keys == db.tasks.Keys
  {}

  lemma KeysOfStart(r: Redactor, db: Db, id: Id, expected: nat, worker: Name, seconds: int, now: int)
    requires Good(r, db)
    ensures Protocol.Start(db, r, id, expected, worker, seconds, now).db.tasks.Keys == db.tasks.Keys
  {
    hide Good, Protocol.Start, StartedTask, Edge;
    StartUnfold(db, r, id, expected, worker, seconds, now);
    if Protocol.Start(db, r, id, expected, worker, seconds, now).out.Ok? { StartShape(r, db, id, expected, worker, seconds, now); }
  }

  lemma KeysOfHeartbeat(db: Db, t: Ticket, seconds: int, now: int)
    ensures Protocol.Heartbeat(db, t, seconds, now).db.tasks.Keys == db.tasks.Keys
  {}

  lemma KeysOfFinish(r: Redactor, db: Db, t: Ticket, status: Status, result: Option<TaskResult>, note: string, actor: Name, now: int)
    requires Good(r, db)
    ensures Protocol.Finish(db, r, t, status, result, note, actor, now).db.tasks.Keys == db.tasks.Keys
  {
    hide Good, EndShape, Protocol.Finish, EndState, EndAndSettle, Rewritten;
    FinishUnfold(r, db, t, status, result, note, actor, now);
    if Protocol.Finish(db, r, t, status, result, note, actor, now).out.Ok? {
      FinishShape(r, db, t, status, result, note, actor, now);
      ShapeKeys(db, Protocol.Finish(db, r, t, status, result, note, actor, now).db, Protocol.Finish(db, r, t, status, result, note, actor, now).out.value);
    }
  }

  lemma KeysOfRetry(r: Redactor, db: Db, id: Id, expected: nat, actor: Name, now: int)
    requires Good(r, db)
    ensures Protocol.Retry(db, r, id, expected, actor, now).db.tasks.Keys == db.tasks.Keys
  {
    hide Good, Protocol.Retry, RetryEdge, InitialState, Rewritten;
    RetryUnfold(db, r, id, expected, actor, now);
    if Protocol.Retry(db, r, id, expected, actor, now).out.Ok? { RetryShape(r, db, id, expected, actor, now); }
  }

  lemma KeysOfRecover(r: Redactor, db: Db, actor: Name, now: int)
    requires Good(r, db)
    ensures RecoverExpired(db, r, actor, now).db.tasks.Keys == db.tasks.Keys
  {
    hide *;
    ExpiredRowsGood(r, db, now);
    RecoverUnfold(db, r, actor, now);
    if RecoverExpired(db, r, actor, now).out.Ok? {
      RecoverShape(r, db, actor, now);
      RecoveredKeys(db, RecoverExpired(db, r, actor, now).db, ExpiredSet(db, now));
    }
  }

  lemma RecoveredKeys(db: Db, db': Db, expired: set<Id>)
    requires AllRecovered(db, db', expired)
    ensures db'.tasks.Keys == db.tasks.Keys
  {}

  /** In every run whose tasks come through `delegate`, every task stays within its parent. */
  lemma {:induction false} RunKeepsOrder(r: Redactor, calls: seq<Call>)
    requires Idempotent(r) && AllAdmissible(calls) && AllDelegated(r, calls)
    ensures Ordered(Run(r, EmptyDb, calls)) && Good(r, Run(r, EmptyDb, calls))
    decreases |calls|
  {
    assert Good(r, EmptyDb) by { EmptyInv(); }
    if calls == [] {
      NothingOrdered();
    } else {
      var n := |calls| - 1;
      var before := Run(r, EmptyDb, calls[..n]);
      PrefixDelegated(r, calls);
      LastFits(r, calls);
      assert Admissible(calls[n]);
      assert Run(r, EmptyDb, calls) == Step(r, before, calls[n]) by { hide Step; }
      hide *;
      RunKeepsOrder(r, calls[..n]);
      StepKeepsOrder(r, before, calls[n]);
      StepSafe(r, before, calls[n]);
      SafeGood(r, before, Step(r, before, calls[n]));
    }
  }

  lemma PrefixDelegated(r: Redactor, calls: seq<Call>)
    requires calls != [] && AllAdmissible(calls) && AllDelegated(r, calls)
    ensures AllAdmissible(calls[..|calls| - 1]) && AllDelegated(r, calls[..|calls| - 1])
  {
    hide PassesDelegate, Run, Admissible;
    var front := calls[..|calls| - 1];
    forall i | 0 <= i < |front| && front[i].Create?
      ensures exists j :: 0 <= j <= i && PassesDelegate(Run(r, EmptyDb, front[..j]), front[i].task)
    {
      assert calls[i].Create?;
      var j :| 0 <= j <= i && PassesDelegate(Run(r, EmptyDb, calls[..j]), calls[i].task);
      assert front[..j] == calls[..j];
    }
  }

  lemma LastFits(r: Redactor, calls: seq<Call>)
    requires Idempotent(r) && calls != [] && AllAdmissible(calls) && AllDelegated(r, calls)
    ensures var c := calls[|calls| - 1]; c.Create? ==> FitsUnder(Run(r, EmptyDb, calls[..|calls| - 1]), c.task)
  {
    var n := |calls| - 1;
    hide FitsUnder, PassesDelegate, Run, Admissible, Good, Idempotent, Safe;
    if calls[n].Create? {
      var j :| 0 <= j <= n && PassesDelegate(Run(r, EmptyDb, calls[..j]), calls[n].task);
      var front := calls[..n];
      assert front[..j] == calls[..j];
      assert AllAdmissible(front);
      RunPrefixTasks(r, front, j);
      PassedFits(Run(r, EmptyDb, front[..j]), calls[n].task);
      FitsLater(Run(r, EmptyDb, front[..j]), Run(r, EmptyDb, front), calls[n].task);
    }
  }

  lemma RunPrefixTasks(r: Redactor, calls: seq<Call>, j: nat)
    requires Idempotent(r) && AllAdmissible(calls) && j <= |calls|
    ensures LaterTasks(Run(r, EmptyDb, calls[..j]), Run(r, EmptyDb, calls))
  {
    assert Good(r, EmptyDb) by { EmptyInv(); }
    assert calls == calls[..j] + calls[j..];
    assert AllAdmissible(calls[..j]) && AllAdmissible(calls[j..]) by { hide Admissible; }
    hide *;
    RunSafe(r, EmptyDb, calls[..j]);
    SafeGood(r, EmptyDb, Run(r, EmptyDb, calls[..j]));
    RunSplit(r, EmptyDb, calls[..j], calls[j..]);
    RunSafe(r, Run(r, EmptyDb, calls[..j]), calls[j..]);
    SafeTasks(r, Run(r, EmptyDb, calls[..j]), Run(r, EmptyDb, calls));
  }

  lemma OneUp(db: Db, id: Id)
    requires Ordered(db) && id in db.tasks && Parent(db, id).Some?
    ensures Parent(db, id).value in db.tasks
    ensures Within(db.tasks[id].snapshot.spec, db.tasks[Parent(db, id).value].snapshot.spec)
  {
    hide Within;
    assert FitsUnder(db, db.tasks[id].snapshot);
  }

  /** Along the whole chain a task reaches no further than any of its ancestors. */
  lemma {:induction false} ChainContained(db: Db, id: Id, k: nat, a: Id)
    requires Ordered(db) && id in db.tasks && Ancestor(db, id, k) == Some(a)
    ensures a in db.tasks && Within(db.tasks[id].snapshot.spec, db.tasks[a].snapshot.spec)
    decreases k
  {
    hide Ordered, Within, Ancestor;
    if k == 0 {
      AncestorSelf(db, id);
      WithinRefl(db.tasks[id].snapshot.spec);
    } else {
      AncestorUp(db, id, k);
      OneUp(db, id);
      var p := Parent(db, id).value;
      ChainContained(db, p, k - 1, a);
      WithinTrans(db.tasks[id].snapshot.spec, db.tasks[p].snapshot.spec, db.tasks[a].snapshot.spec);
    }
  }

  lemma WithinRefl(s: Spec)
    ensures Within(s, s)
  {
    CapabilitiesOrder(s.capabilities, s.capabilities, s.capabilities);
    CapabilitiesExactly(s.capabilities, s.capabilities);
  }

  /** For the whole of any delegated run: what a stored task may do, any of its ancestors may. */
  lemma DelegationNeverWidens(r: Redactor, calls: seq<Call>, id: Id, k: nat, a: Id)
    requires Idempotent(r) && AllAdmissible(calls) && AllDelegated(r, calls)
    requires id in Run(r, EmptyDb, calls).tasks && Ancestor(Run(r, EmptyDb, calls), id, k) == Some(a)
    ensures var db := Run(r, EmptyDb, calls);
      && a in db.tasks
      && var below, above := db.tasks[id].snapshot.spec, db.tasks[a].snapshot.spec;
      && (above.capabilities.files == FilesOff ==> below.capabilities.files == FilesOff)
      && (above.capabilities.files == FilesRead ==> below.capabilities.files != FilesWrite)
      && (above.capabilities.memory == MemoryOff ==> below.capabilities.memory == MemoryOff)
      && (above.capabilities.memory == MemoryReadOnly ==> below.capabilities.memory in {MemoryOff, MemoryReadOnly})
      && (above.capabilities.memory == MemoryManual ==> below.capabilities.memory != MemoryAutomatic)
      && (below.capabilities.shell ==> above.capabilities.shell)
      && (below.capabilities.network ==> above.capabilities.network)
      && (below.capabilities.externalServices ==> above.capabilities.externalServices)
      && (below.capabilities.utilities ==> above.capabilities.utilities)
      && (forall x :: x in below.toolNames ==> x in above.toolNames)
      && (forall x :: x in below.skillNames ==> x in above.skillNames)
      && (forall x :: x in below.mcpLabels ==> x in above.mcpLabels)
      && (below.modelProfile.Some? ==> below.modelProfile == above.modelProfile)
      && below.backend == above.backend && below.workspace == above.workspace
  {
    assert Within(Run(r, EmptyDb, calls).tasks[id].snapshot.spec, Run(r, EmptyDb, calls).tasks[a].snapshot.spec) by {
      hide *;
      RunKeepsOrder(r, calls);
      ChainContained(Run(r, EmptyDb, calls), id, k, a);
    }
    hide Run, Idempotent, AllAdmissible, AllDelegated, Ancestor;
  }
}

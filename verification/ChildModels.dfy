/** Values of the child-task protocol: tasks, results, and the tickets workers hold. */
module ChildModels {
  import opened Basics
  import opened Redaction

  datatype Status =
    | Pending | Ready | Running | Waiting | Completed
    | Failed | Blocked | Cancelled | BudgetExhausted | Unknown

  predicate Terminal(s: Status) {
    s in {Completed, Failed, Cancelled, BudgetExhausted, Unknown}
  }

  function StatusText(s: Status): string {
    match s
    case Pending => "pending"
    case Ready => "ready"
    case Running => "running"
    case Waiting => "waiting"
    case Completed => "completed"
    case Failed => "failed"
    case Blocked => "blocked"
    case Cancelled => "cancelled"
    case BudgetExhausted => "budget_exhausted"
    case Unknown => "unknown"
  }

  datatype Role = Leaf | Orchestrator
  datatype FileAccess = FilesOff | FilesRead | FilesWrite
  datatype MemoryMode = MemoryOff | MemoryReadOnly | MemoryManual | MemoryAutomatic
  datatype WorkspaceMode = HostWorkspace | Temporary | GitWorktree | Container

  datatype Capabilities = Capabilities(
    files: FileAccess, shell: bool, memory: MemoryMode,
    network: bool, externalServices: bool, utilities: bool)

  /** What a child is given to do.  `package` holds the instruction, the context,
      the budget counters and the result schema. */
  datatype Spec = Spec(
    package: Json, capabilities: Capabilities,
    toolNames: seq<string>, skillNames: seq<string>, mcpLabels: seq<string>,
    modelProfile: Option<string>, backend: string, workspace: WorkspaceMode,
    role: Role, mutable: bool, maxDepth: nat, maxParallelism: nat, deadline: Option<int>)

  datatype Lineage = Lineage(parent: Option<Id>, root: Option<Id>, depth: nat)

  datatype Evidence = Evidence(body: Json, criteria: seq<string>)

  datatype TaskResult = TaskResult(
    body: Json, evidence: seq<Evidence>, claims: seq<string>,
    changedFiles: seq<string>, traceId: Option<string>, changeSetId: Option<string>)

  /** Goal, conversation, turn and trace links are `links`; times are microseconds. */
  datatype ChildTask = ChildTask(
    id: Id, spec: Spec, lineage: Lineage, deps: seq<Id>, links: Json,
    status: Status, revision: nat, attemptCount: nat, cancelRequested: bool,
    result: Option<TaskResult>, reason: Option<string>,
    createdAt: int, updatedAt: int, completedAt: Option<int>)

  /** What a worker holds for the attempt it claimed. */
  datatype Ticket = Ticket(
    taskId: Id, attemptId: nat, number: nat, worker: string, token: nat, lease: int)

  datatype Error =
    | NotFound(id: Id)
    | RevisionConflict(id: Id, expected: nat, actual: nat)
    | LeaseConflict
    | WorkConflict
    | DeliveryConflict
    | InvalidTransition
    | InvalidValue

  datatype Outcome<+T> = Ok(value: T) | Err(error: Error)

  // ----- The part of a task that its creation fixes -----

  datatype Payload = Payload(id: Id, spec: Spec, lineage: Lineage, deps: seq<Id>, links: Json)

  function CreationPayload(t: ChildTask): Payload {
    Payload(t.id, t.spec, t.lineage, t.deps, t.links)
  }

  // ----- Redaction before a task is written -----

  function RedactSpec(r: Redactor, s: Spec): Spec {
    s.(package := RedactData(r, s.package),
       toolNames := RedactNames(r, s.toolNames),
       skillNames := RedactNames(r, s.skillNames),
       mcpLabels := RedactNames(r, s.mcpLabels),
       modelProfile := RedactOption(r, s.modelProfile),
       backend := r.text(s.backend))
  }

  function RedactLineage(r: Redactor, l: Lineage): Lineage {
    l.(parent := RedactOption(r, l.parent), root := RedactOption(r, l.root))
  }

  function RedactEvidence(r: Redactor, es: seq<Evidence>): (u: seq<Evidence>)
    ensures |u| == |es|
    ensures forall i :: 0 <= i < |es| ==> u[i].criteria == RedactNames(r, es[i].criteria)
  {
    seq(|es|, i requires 0 <= i < |es| =>
      Evidence(RedactData(r, es[i].body), RedactNames(r, es[i].criteria)))
  }

  function RedactResult(r: Redactor, v: TaskResult): TaskResult {
    TaskResult(RedactData(r, v.body), RedactEvidence(r, v.evidence), RedactNames(r, v.claims),
               RedactNames(r, v.changedFiles), RedactOption(r, v.traceId), RedactOption(r, v.changeSetId))
  }

  function RedactResultOption(r: Redactor, v: Option<TaskResult>): Option<TaskResult> {
    match v
    case None => None
    case Some(t) => Some(RedactResult(r, t))
  }

  function RedactTask(r: Redactor, t: ChildTask): ChildTask {
    t.(id := r.text(t.id),
       spec := RedactSpec(r, t.spec),
       lineage := RedactLineage(r, t.lineage),
       deps := RedactNames(r, t.deps),
       links := RedactData(r, t.links),
       result := RedactResultOption(r, t.result),
       reason := RedactOption(r, t.reason))
  }

  function RedactPayload(r: Redactor, p: Payload): Payload {
    Payload(r.text(p.id), RedactSpec(r, p.spec), RedactLineage(r, p.lineage),
            RedactNames(r, p.deps), RedactData(r, p.links))
  }

  lemma RedactTaskPayload(r: Redactor, t: ChildTask)
    ensures CreationPayload(RedactTask(r, t)) == RedactPayload(r, CreationPayload(t))
  {}

  lemma RedactPayloadIdempotent(r: Redactor, p: Payload)
    requires Idempotent(r)
    ensures RedactPayload(r, RedactPayload(r, p)) == RedactPayload(r, p)
  {
    assert r.text(r.text(p.id)) == r.text(p.id);
    RedactDataIdempotent(r, p.spec.package);
    RedactNamesIdempotent(r, p.spec.toolNames);
    RedactNamesIdempotent(r, p.spec.skillNames);
    RedactNamesIdempotent(r, p.spec.mcpLabels);
    if p.spec.modelProfile.Some? { assert r.text(r.text(p.spec.modelProfile.value)) == r.text(p.spec.modelProfile.value); }
    assert r.text(r.text(p.spec.backend)) == r.text(p.spec.backend);
    if p.lineage.parent.Some? { assert r.text(r.text(p.lineage.parent.value)) == r.text(p.lineage.parent.value); }
    if p.lineage.root.Some? { assert r.text(r.text(p.lineage.root.value)) == r.text(p.lineage.root.value); }
    RedactNamesIdempotent(r, p.deps);
    RedactDataIdempotent(r, p.links);
  }
}

/**
 Resuming a run on a durable approval spans two stores.  A call of `resume` is a process
 that reads and writes them one transaction at a time; other processes and other callers
 come between its steps, and it may crash after any of them.
 */
module ApprovalSaga {
  import opened Basics
  import opened ApprovalLedger

  // ----- The run store, as far as approvals need it -----

  datatype RunStatus =
    | RunQueued | RunRunning | RunWaitingForChildren | RunWaitingForApproval | RunWaitingForRetry
    | RunCompleted | RunFailed | RunCancelled | RunUnknown | RunDeadLetter

  /** `waiting` is the approval named in the waiting reason; `uncertain` says that some effect
      of the run may or may not have happened; `parent` that the run is a configured parent. */
  datatype RunRow = RunRow(
    scope: Scope, status: RunStatus, waiting: Option<Id>, cancelling: bool, uncertain: bool, parent: bool)

  type Runs = map<Id, RunRow>

  datatype World = World(ledger: Ledger, runs: Runs)

  function RunGet(runs: Runs, scope: Scope, id: Id): Answer<RunRow> {
    if id !in runs || !Resumable(scope, runs[id].scope) then Err(NotFound) else Ok(runs[id])
  }

  /** Pausing needs the run's live lease, an active attempt and no uncertain effect in the step: `able`. */
  function Pause(runs: Runs, scope: Scope, able: bool, approval: Id): Answer<Runs> {
    match RunGet(runs, scope, scope.run)
    case Err(e) => Err(e)
    case Ok(row) =>
      if !able || row.status != RunRunning then Err(Conflict)
      else Ok(runs[scope.run := row.(status := RunWaitingForApproval, waiting := Some(approval))])
  }

  function RunResume(runs: Runs, scope: Scope, id: Id): Answer<Runs> {
    match RunGet(runs, scope, id)
    case Err(e) => Err(e)
    case Ok(row) =>
      if row.status !in {RunWaitingForApproval, RunWaitingForRetry} || row.cancelling then Err(Conflict)
      else Ok(runs[id := row.(status := RunQueued, waiting := None)])
  }

  function RunCancel(runs: Runs, scope: Scope, id: Id): Answer<Runs> {
    match RunGet(runs, scope, id)
    case Err(e) => Err(e)
    case Ok(row) =>
      if row.parent || row.status in {RunCompleted, RunRunning} then Err(Conflict)
      else if row.status == RunCancelled then Ok(runs)
      else Ok(runs[id := row.(status := if row.uncertain then RunUnknown else RunCancelled, waiting := None, cancelling := true)])
  }

  // ----- Asking for an approval -----

  /** `request`: create the approval, pause the run on it; an approval the run could not be
      paused for is invalidated. */
  function AskFor(w: World, scope: Scope, sub: Submission, able: bool, newId: Id, now: int): (World, Answer<Request>) {
    var owner := if scope.run in w.runs then Some(w.runs[scope.run].scope) else None;
    var created := Create(w.ledger, owner, scope, sub, newId, now);
    match created.out
    case Err(e) => (w, Err(e))
    case Ok(approval) =>
      match Pause(w.runs, scope, able, approval.id)
      case Err(e) => (World(Invalidate(created.ledger, scope, approval.id, UNPAUSED, now).ledger, w.runs), Err(e))
      case Ok(runs) => (World(created.ledger, runs), Ok(approval))
  }

  const UNPAUSED: Name := "run could not be paused for approval"

  // ----- Fresh facts -----

  datatype Validation = Validation(
    scope: Scope, tool: string, toolVersion: string, schemaVersion: string, arguments: string, policy: string,
    authorityValid: bool, credentialsAvailable: bool)

  datatype Kind =
    | OutPaused | OutResumed | OutDenied | OutExpired | OutInvalidated | OutCancelled
    | OutRevokedAuthority | OutUnavailableIntegration

  datatype Mismatch = Mismatch(kind: Kind, reason: Name)

  function FindMismatch(row: Request, v: Validation): Option<Mismatch> {
    if !Resumable(v.scope, row.scope) then Some(Mismatch(OutRevokedAuthority, "scope changed"))
    else if v.tool != row.subject.tool then Some(Mismatch(OutInvalidated, "tool name changed"))
    else if v.toolVersion != row.subject.toolVersion then Some(Mismatch(OutInvalidated, "tool version changed"))
    else if v.schemaVersion != row.subject.schemaVersion then Some(Mismatch(OutInvalidated, "schema version changed"))
    else if v.arguments != row.subject.arguments then Some(Mismatch(OutInvalidated, "arguments digest changed"))
    else if v.policy != row.subject.policy then Some(Mismatch(OutInvalidated, "policy version changed"))
    else if !v.authorityValid then Some(Mismatch(OutRevokedAuthority, "authority revoked"))
    else if !v.credentialsAvailable then Some(Mismatch(OutUnavailableIntegration, "credentials unavailable"))
    else None
  }

  /** The facts say what they said when the approval was asked for, and authority and
      credentials are still there. */
  predicate Matches(row: Request, v: Validation) {
    && Resumable(v.scope, row.scope)
    && v.tool == row.subject.tool && v.toolVersion == row.subject.toolVersion && v.schemaVersion == row.subject.schemaVersion
    && v.arguments == row.subject.arguments && v.policy == row.subject.policy
    && v.authorityValid && v.credentialsAvailable
  }

  /** Validation finds nothing exactly when every fact matches. */
  lemma MismatchExactly(row: Request, v: Validation)
    ensures FindMismatch(row, v).None? <==> Matches(row, v)
  {}

  // ----- A call of resume, one transaction at a time -----

  datatype Stage =
    | Starting | Refreshing | Rereading
    | Closing(why: Mismatch) | Ending(kind: Kind) | CancellingRun(kind: Kind)
    | Consuming(revision: nat) | Releasing | ResumingRun | Answering(kind: Kind)
    | Finished(kind: Kind) | Raised

  datatype Proc = Proc(approval: Id, scope: Scope, validation: Validation, stage: Stage)

  function KindOf(s: ApprovalStatus): Kind {
    match s
    case Denied => OutDenied
    case Expired => OutExpired
    case Cancelled => OutCancelled
    case _ => OutInvalidated
  }

  /** Where the call goes on with the request it has read. */
  function Next(row: Request, v: Validation): Stage {
    if Refused(row.status) then Ending(KindOf(row.status))
    else
      match FindMismatch(row, v)
      case Some(why) => if row.status == Consumed then Answering(why.kind) else Closing(why)
      case None =>
        match row.status
        case Pending => Answering(OutPaused)
        case Consumed => Releasing
        case _ => Consuming(row.revision)
  }

  function Step(w: World, p: Proc, now: int): (World, Proc) {
    match p.stage
    case Starting =>
      (match Get(w.ledger, p.scope, p.approval)
       case Err(_) => (w, p.(stage := Raised))
       case Ok(row) => (w, p.(stage := if Due(row, now) then Refreshing else Next(row, p.validation))))
    case Refreshing => (w.(ledger := Expire(w.ledger, now)), p.(stage := Rereading))
    case Rereading =>
      (match Get(w.ledger, p.scope, p.approval)
       case Err(_) => (w, p.(stage := Raised))
       case Ok(row) => (w, p.(stage := Next(row, p.validation))))
    case Closing(why) =>
      var closed := Invalidate(w.ledger, p.scope, p.approval, why.reason, now);
      (w.(ledger := closed.ledger), p.(stage := if closed.out.Ok? then Ending(why.kind) else Raised))
    case Ending(kind) =>
      (match RunGet(w.runs, p.scope, p.scope.run)
       case Err(_) => (w, p.(stage := Raised))
       case Ok(run) => (w, p.(stage := if run.status == RunWaitingForApproval then CancellingRun(kind) else Finished(kind))))
    case CancellingRun(kind) =>
      (match RunCancel(w.runs, p.scope, p.scope.run)
       case Err(_) => (w, p.(stage := Raised))
       case Ok(runs) => (w.(runs := runs), p.(stage := Finished(kind))))
    case Consuming(revision) =>
      var consumed := Consume(w.ledger, p.scope, p.approval, revision, now);
      (w.(ledger := consumed.ledger), p.(stage := if consumed.out.Ok? then Releasing else Raised))
    case Releasing =>
      (match RunGet(w.runs, p.scope, p.scope.run)
       case Err(_) => (w, p.(stage := Raised))
       case Ok(run) =>
         (w, p.(stage := if run.status == RunWaitingForApproval then ResumingRun
                         else Finished(if run.status in {RunQueued, RunRunning, RunCompleted} then OutResumed else OutInvalidated))))
    case ResumingRun =>
      (match RunResume(w.runs, p.scope, p.scope.run)
       case Err(_) => (w, p.(stage := Raised))
       case Ok(runs) => (w.(runs := runs), p.(stage := Finished(OutResumed))))
    case Answering(kind) =>
      (w, p.(stage := if RunGet(w.runs, p.scope, p.scope.run).Ok? then Finished(kind) else Raised))
    case _ => (w, p)
  }

  // ----- All interleavings -----

  datatype System = System(world: World, procs: seq<Proc>)

  /** What other callers may do to the runs: anything but release one that waits for an approval. */
  ghost predicate RunsMove(runs: Runs, runs': Runs) {
    forall id :: id in runs && runs[id].status == RunWaitingForApproval ==>
      id in runs' && (runs'[id] == runs[id] || runs'[id].status in {RunCancelled, RunUnknown})
  }

  datatype Event =
    | Begin(proc: Proc)
    | Go(i: nat, now: int)
    | Crash(i: nat)
    | Ledger(call: Call)
    | Runs(runs: map<Id, RunRow>)

  ghost predicate Enabled(s: System, e: Event) {
    match e
    case Begin(p) => p.stage == Starting
    case Go(i, _) => i < |s.procs|
    case Crash(i) => i < |s.procs|
    case Ledger(c) => Possible(s.world.ledger, c)
    case Runs(runs) => RunsMove(s.world.runs, runs)
  }

  ghost function Do(s: System, e: Event): System
    requires Enabled(s, e)
  {
    match e
    case Begin(p) => s.(procs := s.procs + [p])
    case Go(i, now) => var (w, p) := Step(s.world, s.procs[i], now); System(w, s.procs[i := p])
    case Crash(i) => s.(procs := s.procs[i := s.procs[i].(stage := Raised)])
    case Ledger(c) => s.(world := s.world.(ledger := Apply(s.world.ledger, c)))
    case Runs(runs) => s.(world := s.world.(runs := runs))
  }

  /** The request was turned down, in one way or another, for good. */
  predicate Refused(s: ApprovalStatus) {
    s in {Denied, Expired, Invalidated, Cancelled}
  }

  /** A process that is about to consume, to release the run, or to stop it, is entitled to. */
  predicate Entitled(l: Ledger, p: Proc) {
    match p.stage
    case Consuming(_) => p.approval in l.rows && Matches(l.rows[p.approval], p.validation)
    case Releasing => p.approval in l.rows && Matches(l.rows[p.approval], p.validation) && l.rows[p.approval].status == Consumed
    case ResumingRun => p.approval in l.rows && Matches(l.rows[p.approval], p.validation) && l.rows[p.approval].status == Consumed
    case Ending(_) => p.approval in l.rows && Refused(l.rows[p.approval].status)
    case CancellingRun(_) => p.approval in l.rows && Refused(l.rows[p.approval].status)
    case _ => true
  }

  ghost predicate SystemSound(s: System) {
    Sound(s.world.ledger) && forall i :: 0 <= i < |s.procs| ==> Entitled(s.world.ledger, s.procs[i])
  }

  lemma EntitledKept(l: Ledger, l': Ledger, p: Proc)
    requires LedgerStep(l, l') && Entitled(l, p)
    ensures Entitled(l', p)
  {
    if p.approval in l.rows { StepRow(l, l', p.approval); }
  }

  lemma LedgerStepRefl(l: Ledger)
    ensures LedgerStep(l, l)
  {
    forall id | id in l.rows ensures RowStep(l.rows[id], l.rows[id]) { UnmovedStep(l.rows[id]); }
  }

  lemma StepKeepsLedger(w: World, p: Proc, now: int)
    requires Sound(w.ledger)
    ensures Sound(Step(w, p, now).0.ledger) && LedgerStep(w.ledger, Step(w, p, now).0.ledger)
  {
    hide Sound, LedgerStep, Expire, Consume, CloseAs, Get, RunGet, RunCancel, RunResume, FindMismatch;
    LedgerStepRefl(w.ledger);
    match p.stage
    case Refreshing => ExpireSound(w.ledger, now);
    case Closing(why) => CloseSound(w.ledger, p.scope, p.approval, Invalidated, why.reason, now);
    case Consuming(revision) => ConsumeSound(w.ledger, p.scope, p.approval, revision, now);
    case _ =>
  }

  lemma NextEntitled(l: Ledger, p: Proc)
    requires p.approval in l.rows
    ensures Entitled(l, p.(stage := Next(l.rows[p.approval], p.validation)))
  {
    MismatchExactly(l.rows[p.approval], p.validation);
  }

  lemma StepEntitled(w: World, p: Proc, now: int)
    requires Entitled(w.ledger, p)
    ensures Entitled(Step(w, p, now).0.ledger, Step(w, p, now).1)
  {
    hide FindMismatch, Expire, RunGet, RunCancel, RunResume;
    if p.approval in w.ledger.rows { NextEntitled(w.ledger, p); }
    hide Next, Matches, Resumable;
    match p.stage
    case Consuming(revision) =>
      if Consume(w.ledger, p.scope, p.approval, revision, now).out.Ok? { ConsumedMatches(w.ledger, p, revision, now); }
    case Closing(why) =>
      if Invalidate(w.ledger, p.scope, p.approval, why.reason, now).out.Ok? { InvalidatedRefused(w.ledger, p, why.reason, now); }
    case _ =>
  }

  lemma InvalidatedRefused(l: Ledger, p: Proc, reason: Name, now: int)
    requires Invalidate(l, p.scope, p.approval, reason, now).out.Ok?
    ensures var l' := Invalidate(l, p.scope, p.approval, reason, now).ledger;
      p.approval in l'.rows && Refused(l'.rows[p.approval].status)
  {}

  lemma ConsumedMatches(l: Ledger, p: Proc, revision: nat, now: int)
    requires p.approval in l.rows && Matches(l.rows[p.approval], p.validation)
    requires Consume(l, p.scope, p.approval, revision, now).out.Ok?
    ensures var l' := Consume(l, p.scope, p.approval, revision, now).ledger;
      p.approval in l'.rows && Matches(l'.rows[p.approval], p.validation) && l'.rows[p.approval].status == Consumed
  {}

  lemma DoSound(s: System, e: Event)
    requires SystemSound(s) && Enabled(s, e)
    ensures SystemSound(Do(s, e)) && LedgerStep(s.world.ledger, Do(s, e).world.ledger)
  {
    hide Sound, LedgerStep, Entitled, Step, Apply, RunsMove;
    var s' := Do(s, e);
    LedgerStepRefl(s.world.ledger);
    match e
    case Begin(p) => StartingEntitled(s.world.ledger, p);
    case Go(i, now) =>
      StepKeepsLedger(s.world, s.procs[i], now);
      StepEntitled(s.world, s.procs[i], now);
      forall k | 0 <= k < |s.procs| ensures Entitled(s'.world.ledger, s'.procs[k]) {
        if k != i { EntitledKept(s.world.ledger, s'.world.ledger, s.procs[k]); }
      }
    case Crash(i) => RaisedEntitled(s.world.ledger, s.procs[i]);
    case Ledger(c) =>
      ApplySound(s.world.ledger, c);
      forall k | 0 <= k < |s.procs| ensures Entitled(s'.world.ledger, s'.procs[k]) {
        EntitledKept(s.world.ledger, s'.world.ledger, s.procs[k]);
      }
    case Runs(runs) =>
  }

  lemma StartingEntitled(l: Ledger, p: Proc)
    requires p.stage == Starting
    ensures Entitled(l, p)
  {}

  lemma RaisedEntitled(l: Ledger, p: Proc)
    ensures Entitled(l, p.(stage := Raised))
  {}

  ghost predicate Reaches(s: System, events: seq<Event>, s': System)
    decreases |events|
  {
    if events == [] then s' == s else Enabled(s, events[0]) && Reaches(Do(s, events[0]), events[1..], s')
  }

  lemma {:induction false} ReachesSound(s: System, events: seq<Event>, s': System)
    requires SystemSound(s) && Reaches(s, events, s')
    ensures SystemSound(s')
    decreases |events|
  {
    hide SystemSound, Do, Enabled;
    if events != [] {
      DoSound(s, events[0]);
      ReachesSound(Do(s, events[0]), events[1..], s');
    }
  }

  /** The event took a run that waited for an approval and let it go on. */
  predicate Releases(s: System, s': System, run: Id) {
    && run in s.world.runs && s.world.runs[run].status == RunWaitingForApproval
    && run in s'.world.runs && s'.world.runs[run].status !in {RunWaitingForApproval, RunCancelled, RunUnknown}
  }

  function Start(runs: Runs): System {
    System(World(ApprovalLedger.Ledger([], map[]), runs), [])
  }

  lemma OnlyResumingReleases(s: System, e: Event, run: Id)
    requires Enabled(s, e) && Releases(s, Do(s, e), run)
    ensures e.Go? && s.procs[e.i].stage == ResumingRun && s.procs[e.i].scope.run == run
    ensures RunGet(s.world.runs, s.procs[e.i].scope, run).Ok?
  {
    hide Resumable, Consume, CloseAs, Expire, Get, Next;
  }

  /** Over all interleavings and crashes: a run that waits for an approval is let go only by a
      call of `resume` whose approval, for that very run, is CONSUMED, had been approved, was
      not expired when it was consumed, and matches the call's own fresh validation. */
  lemma ReleasedOnlyWhenConsumed(runs: Runs, events: seq<Event>, s: System, e: Event, run: Id)
    requires Reaches(Start(runs), events, s) && Enabled(s, e) && Releases(s, Do(s, e), run)
    ensures e.Go? && e.i < |s.procs|
    ensures var p, l := s.procs[e.i], s.world.ledger;
      && p.approval in l.rows
      && var row := l.rows[p.approval];
      && row.status == Consumed && row.decision == Some(Approve)
      && row.consumedAt.Some? && row.consumedAt.value < row.expiresAt
      && Matches(row, p.validation) && p.scope.run == run
  {
    assert SystemSound(Start(runs));
    hide Sound, Do, Reaches, Releases, Start, RunGet;
    ReachesSound(Start(runs), events, s);
    OnlyResumingReleases(s, e, run);
    var p := s.procs[e.i];
    assert Entitled(s.world.ledger, p);
    SoundRow(s.world.ledger, p.approval);
  }

  /** The event ended a run that waited for an approval. */
  predicate Stops(s: System, s': System, run: Id) {
    && run in s.world.runs && s.world.runs[run].status == RunWaitingForApproval
    && run in s'.world.runs && s'.world.runs[run].status in {RunCancelled, RunUnknown}
  }

  lemma OnlyCancellingStops(s: System, e: Event, run: Id)
    requires e.Go? && Enabled(s, e) && Stops(s, Do(s, e), run)
    ensures s.procs[e.i].stage.CancellingRun? && s.procs[e.i].scope.run == run
  {
    hide Resumable, Consume, CloseAs, Expire, Get, Next;
  }

  /** Over all interleavings and crashes: a call of `resume` ends a run that waits for an
      approval only if the call's own approval, for that very run, was denied, expired,
      invalidated or cancelled, and stays so. */
  lemma StoppedOnlyWhenRefused(runs: Runs, events: seq<Event>, s: System, e: Event, run: Id)
    requires Reaches(Start(runs), events, s) && e.Go? && Enabled(s, e) && Stops(s, Do(s, e), run)
    ensures var p, l := s.procs[e.i], s.world.ledger;
      && p.approval in l.rows && Refused(l.rows[p.approval].status) && p.scope.run == run
      && p.approval in Do(s, e).world.ledger.rows && Do(s, e).world.ledger.rows[p.approval] == l.rows[p.approval]
  {
    assert SystemSound(Start(runs));
    hide Sound, Do, Reaches, Stops, Start, LedgerStep;
    ReachesSound(Start(runs), events, s);
    OnlyCancellingStops(s, e, run);
    var p := s.procs[e.i];
    assert Entitled(s.world.ledger, p);
    DoSound(s, e);
    StepRow(s.world.ledger, Do(s, e).world.ledger, p.approval);
  }

  /** The event consumed the approval. */
  predicate NowConsumed(s: System, s': System, id: Id) {
    && id in s.world.ledger.rows && s.world.ledger.rows[id].status != Consumed
    && id in s'.world.ledger.rows && s'.world.ledger.rows[id].status == Consumed
  }

  lemma OnlyConsumingConsumes(s: System, e: Event, id: Id)
    requires e.Go? && Enabled(s, e) && NowConsumed(s, Do(s, e), id)
    ensures s.procs[e.i].stage.Consuming? && s.procs[e.i].approval == id
  {
    hide Resumable, RunGet, RunCancel, RunResume, Next;
  }

  /** A call of `resume` consumes only the approval it names, and only if that matches the
      call's own fresh validation. */
  lemma ConsumedOnlyWhenMatching(runs: Runs, events: seq<Event>, s: System, e: Event, id: Id)
    requires Reaches(Start(runs), events, s) && e.Go? && Enabled(s, e) && NowConsumed(s, Do(s, e), id)
    ensures s.procs[e.i].approval == id && Matches(s.world.ledger.rows[id], s.procs[e.i].validation)
  {
    assert SystemSound(Start(runs));
    hide Sound, Do, Reaches, NowConsumed, Start, Matches;
    ReachesSound(Start(runs), events, s);
    assert id in s.world.ledger.rows by { ConsumedRowKnown(s, Do(s, e), id); }
    OnlyConsumingConsumes(s, e, id);
    assert Entitled(s.world.ledger, s.procs[e.i]);
  }

  lemma ConsumedRowKnown(s: System, s': System, id: Id)
    requires NowConsumed(s, s', id)
    ensures id in s.world.ledger.rows
  {}

  // ----- One call on its own -----

  function Rank(s: Stage): nat {
    match s
    case Starting => 7
    case Refreshing => 6
    case Rereading => 5
    case Closing(_) => 4
    case Ending(_) => 3
    case CancellingRun(_) => 2
    case Consuming(_) => 3
    case Releasing => 2
    case ResumingRun => 1
    case Answering(_) => 1
    case _ => 0
  }

  lemma RankFalls(w: World, p: Proc, now: int)
    requires Rank(p.stage) > 0
    ensures Rank(Step(w, p, now).1.stage) < Rank(p.stage)
  {
    hide Get, Consume, CloseAs, RunGet, RunCancel, RunResume, Expire, FindMismatch;
  }

  /** The call from where it is to its end, with nothing in between. */
  function Complete(w: World, p: Proc, now: int): (World, Proc)
    decreases Rank(p.stage)
  {
    if Rank(p.stage) == 0 then (w, p)
    else
      RankFalls(w, p, now);
      Complete(Step(w, p, now).0, Step(w, p, now).1, now)
  }

  function Resume(w: World, scope: Scope, approval: Id, v: Validation, now: int): (World, Proc) {
    Complete(w, Proc(approval, scope, v, Starting), now)
  }

  lemma CompleteStep(w: World, p: Proc, now: int)
    requires Rank(p.stage) > 0
    ensures Complete(w, p, now) == Complete(Step(w, p, now).0, Step(w, p, now).1, now)
  {
    hide Step;
    RankFalls(w, p, now);
  }

  /** What happens to the run once the ledger says that the approval is consumed. */
  function Released(w: World, scope: Scope): World {
    match RunGet(w.runs, scope, scope.run)
    case Err(_) => w
    case Ok(run) =>
      if run.status == RunWaitingForApproval && !run.cancelling
      then w.(runs := w.runs[scope.run := run.(status := RunQueued, waiting := None)]) else w
  }

  /** What happens to the run once the ledger says that the approval will never be consumed. */
  function Stopped(w: World, scope: Scope): World {
    match RunGet(w.runs, scope, scope.run)
    case Err(_) => w
    case Ok(run) =>
      if run.status == RunWaitingForApproval && !run.parent
      then w.(runs := w.runs[scope.run :=
                run.(status := if run.uncertain then RunUnknown else RunCancelled, waiting := None, cancelling := true)])
      else w
  }

  /** How a call ends that lets the run go: a run that waits is released unless it is being
      cancelled, and any other is answered for by its status. */
  function AnswerReleasing(runs: Runs, scope: Scope): Stage {
    match RunGet(runs, scope, scope.run)
    case Err(_) => Raised
    case Ok(run) =>
      if run.status == RunWaitingForApproval then if run.cancelling then Raised else Finished(OutResumed)
      else if run.status in {RunQueued, RunRunning, RunCompleted} then Finished(OutResumed)
      else Finished(OutInvalidated)
  }

  /** How a call ends that stops the run: a configured parent that waits cannot be cancelled. */
  function AnswerStopping(runs: Runs, scope: Scope, kind: Kind): Stage {
    match RunGet(runs, scope, scope.run)
    case Err(_) => Raised
    case Ok(run) => if run.status == RunWaitingForApproval && run.parent then Raised else Finished(kind)
  }

  lemma ReleasingEnds(w: World, p: Proc, now: int)
    requires p.stage == Releasing
    ensures Complete(w, p, now).0 == Released(w, p.scope)
    ensures Complete(w, p, now).1.stage == AnswerReleasing(w.runs, p.scope)
  {
    CompleteStep(w, p, now);
    var (w1, p1) := Step(w, p, now);
    if p1.stage == ResumingRun {
      CompleteStep(w1, p1, now);
      var (w2, p2) := Step(w1, p1, now);
      assert Complete(w2, p2, now) == (w2, p2);
    } else {
      assert Complete(w1, p1, now) == (w1, p1);
    }
  }

  lemma EndingEnds(w: World, p: Proc, now: int)
    requires p.stage.Ending?
    ensures Complete(w, p, now).0 == Stopped(w, p.scope)
    ensures Complete(w, p, now).1.stage == AnswerStopping(w.runs, p.scope, p.stage.kind)
  {
    CompleteStep(w, p, now);
    var (w1, p1) := Step(w, p, now);
    if p1.stage.CancellingRun? {
      CompleteStep(w1, p1, now);
      var (w2, p2) := Step(w1, p1, now);
      assert Complete(w2, p2, now) == (w2, p2);
    } else {
      assert Complete(w1, p1, now) == (w1, p1);
    }
  }

  lemma AnsweringEnds(w: World, p: Proc, now: int)
    requires p.stage.Answering?
    ensures Complete(w, p, now).0 == w
    ensures Complete(w, p, now).1.stage == if RunGet(w.runs, p.scope, p.scope.run).Ok? then Finished(p.stage.kind) else Raised
  {
    CompleteStep(w, p, now);
    var (w1, p1) := Step(w, p, now);
    assert Complete(w1, p1, now) == (w1, p1);
  }

  predicate Visible(w: World, scope: Scope, id: Id) {
    id in w.ledger.rows && Resumable(scope, w.ledger.rows[id].scope)
  }

  /** What a call of `resume` does, read off the request and the facts. */
  function Effect(w: World, scope: Scope, id: Id, v: Validation, now: int): World
    requires Visible(w, scope, id)
  {
    var row := w.ledger.rows[id];
    if Refused(row.status) then Stopped(w, scope)
    else if Due(row, now) then Stopped(w.(ledger := Expire(w.ledger, now)), scope)
    else if !Matches(row, v) then
      if row.status == Consumed then w
      else
        var why := FindMismatch(row, v);
        var reason: Name := if why.Some? then why.value.reason else UNPAUSED;
        Stopped(w.(ledger := Put(w.ledger, id, ClosedRow(row, Invalidated, reason, now))), scope)
    else if row.status == Pending then w
    else if row.status == Consumed then Released(w, scope)
    else Released(w.(ledger := Put(w.ledger, id, ConsumedRow(row, now))), scope)
  }

  /** How a call ends that goes on at this stage. */
  function AnswerFrom(runs: Runs, scope: Scope, stage: Stage): Stage {
    match stage
    case Ending(kind) => AnswerStopping(runs, scope, kind)
    case Closing(why) => AnswerStopping(runs, scope, why.kind)
    case Answering(kind) => if RunGet(runs, scope, scope.run).Ok? then Finished(kind) else Raised
    case _ => AnswerReleasing(runs, scope)
  }

  lemma FromNext(w: World, p: Proc, now: int)
    requires Visible(w, p.scope, p.approval)
    requires var row := w.ledger.rows[p.approval]; !Due(row, now) && p.stage == Next(row, p.validation)
    ensures Complete(w, p, now).0 == Effect(w, p.scope, p.approval, p.validation, now)
    ensures Complete(w, p, now).1.stage == AnswerFrom(w.runs, p.scope, p.stage)
  {
    var row := w.ledger.rows[p.approval];
    MismatchExactly(row, p.validation);
    hide Matches, Resumable, Released, Stopped, AnswerStopping, AnswerReleasing;
    if p.stage.Ending? {
      EndingEnds(w, p, now);
    } else if p.stage == Releasing {
      ReleasingEnds(w, p, now);
    } else if p.stage.Answering? {
      AnsweringEnds(w, p, now);
    } else {
      CompleteStep(w, p, now);
      var (w1, p1) := Step(w, p, now);
      if p1.stage.Ending? { EndingEnds(w1, p1, now); } else { ReleasingEnds(w1, p1, now); }
    }
  }

  lemma ExpiredNext(l: Ledger, id: Id, v: Validation, now: int)
    requires id in l.rows && Due(l.rows[id], now)
    ensures var l' := Expire(l, now); id in l'.rows && l'.rows[id].scope == l.rows[id].scope && Next(l'.rows[id], v) == Ending(OutExpired)
  {
    hide FindMismatch;
  }

  lemma FromDue(w: World, p: Proc, now: int)
    requires Visible(w, p.scope, p.approval) && p.stage == Refreshing && Due(w.ledger.rows[p.approval], now)
    ensures Complete(w, p, now).0 == Stopped(w.(ledger := Expire(w.ledger, now)), p.scope)
    ensures Complete(w, p, now).1.stage == AnswerStopping(w.runs, p.scope, OutExpired)
  {
    hide AnswerStopping, Stopped, Next, Expire, Resumable;
    CompleteStep(w, p, now);
    var (w1, p1) := Step(w, p, now);
    CompleteStep(w1, p1, now);
    ExpiredNext(w.ledger, p.approval, p.validation, now);
    var (w2, p2) := Step(w1, p1, now);
    EndingEnds(w2, p2, now);
  }

  lemma ResumeDoes(w: World, scope: Scope, id: Id, v: Validation, now: int)
    requires Visible(w, scope, id)
    ensures Resume(w, scope, id, v, now).0 == Effect(w, scope, id, v, now)
    ensures Resume(w, scope, id, v, now).1.stage ==
      if Due(w.ledger.rows[id], now) then AnswerStopping(w.runs, scope, OutExpired)
      else AnswerFrom(w.runs, scope, Next(w.ledger.rows[id], v))
  {
    var p := Proc(id, scope, v, Starting);
    CompleteStep(w, p, now);
    var (w1, p1) := Step(w, p, now);
    hide AnswerStopping, AnswerFrom, Stopped, Released, Expire, FindMismatch, Matches, Resumable;
    if Due(w.ledger.rows[id], now) { FromDue(w1, p1, now); } else { FromNext(w1, p1, now); }
  }

  /** What `resume` writes, read off the request, the facts and the run before the call: at most
      one move of the request, or the expiry of all that are due, and at most one of the run. */
  lemma ResumeWrites(w: World, scope: Scope, id: Id, v: Validation, now: int)
    requires Visible(w, scope, id) && RunGet(w.runs, scope, scope.run).Ok?
    ensures var after, row, run := Resume(w, scope, id, v, now).0, w.ledger.rows[id], w.runs[scope.run];
      var due := row.status in {Pending, Approved} && row.expiresAt <= now;
      && (after.runs ==
            if run.status != RunWaitingForApproval then w.runs
            else if TurnsDown(row, v, now) && !run.parent then
              w.runs[scope.run := run.(status := if run.uncertain then RunUnknown else RunCancelled, waiting := None, cancelling := true)]
            else if !due && row.status in {Approved, Consumed} && Matches(row, v) && !run.cancelling then
              w.runs[scope.run := run.(status := RunQueued, waiting := None)]
            else w.runs)
      && (due ==> after.ledger == Expire(w.ledger, now))
      && (!due && row.status in {Pending, Approved} && !Matches(row, v) ==>
            && id in after.ledger.rows
            && after.ledger.rows[id] == row.(status := Invalidated, revision := row.revision + 1,
                                             reason := after.ledger.rows[id].reason, updatedAt := now)
            && after.ledger.rows[id].reason.Some? && after.ledger == w.ledger.(rows := w.ledger.rows[id := after.ledger.rows[id]]))
      && (!due && row.status == Approved && Matches(row, v) ==>
            after.ledger == w.ledger.(rows := w.ledger.rows[id :=
              row.(status := Consumed, revision := row.revision + 1, consumedAt := Some(now), updatedAt := now)]))
      && (!due && (row.status !in {Pending, Approved} || (row.status == Pending && Matches(row, v))) ==> after.ledger == w.ledger)
  {
    ResumeDoes(w, scope, id, v, now);
    hide Resume, FindMismatch, Matches, Resumable, Expire;
  }

  /** The kind of answer that a fact which no longer holds calls for. */
  lemma MismatchKind(row: Request, v: Validation)
    requires FindMismatch(row, v).Some?
    ensures var kind := FindMismatch(row, v).value.kind;
      && (!Resumable(v.scope, row.scope) ==> kind == OutRevokedAuthority)
      && (Resumable(v.scope, row.scope) && !SameSubject(row, v) ==> kind == OutInvalidated)
      && (Resumable(v.scope, row.scope) && SameSubject(row, v) && !v.authorityValid ==> kind == OutRevokedAuthority)
      && (Resumable(v.scope, row.scope) && SameSubject(row, v) && v.authorityValid ==>
            kind == OutUnavailableIntegration && !v.credentialsAvailable)
  {
    hide Resumable;
  }

  /** Tool, versions, arguments and policy are those that were approved. */
  predicate SameSubject(row: Request, v: Validation) {
    && v.tool == row.subject.tool && v.toolVersion == row.subject.toolVersion && v.schemaVersion == row.subject.schemaVersion
    && v.arguments == row.subject.arguments && v.policy == row.subject.policy
  }

  lemma ResumeUnseen(w: World, scope: Scope, id: Id, v: Validation, now: int)
    requires !Visible(w, scope, id)
    ensures Resume(w, scope, id, v, now).0 == w && Resume(w, scope, id, v, now).1.stage == Raised
  {
    var p := Proc(id, scope, v, Starting);
    CompleteStep(w, p, now);
    var (w1, p1) := Step(w, p, now);
    assert Complete(w1, p1, now) == (w1, p1);
  }

  /** What `resume` answers, read off the request, the facts and the run before the call.  It
      raises when the request or the run cannot be seen, when the run of a request that is
      turned down waits but, being a configured parent, cannot be cancelled, and when a run to
      be released is being cancelled. */
  lemma ResumeAnswers(w: World, scope: Scope, id: Id, v: Validation, now: int)
    ensures var stage := Resume(w, scope, id, v, now).1.stage;
      if !Visible(w, scope, id) || RunGet(w.runs, scope, scope.run).Err? then stage == Raised
      else
        var row, run := w.ledger.rows[id], w.runs[scope.run];
        var waits, unmet := run.status == RunWaitingForApproval, !Matches(row, v);
        var stuck, open := waits && run.parent, row.status in {Pending, Approved};
        var due := open && row.expiresAt <= now;
        && (row.status == Denied ==> stage == if stuck then Raised else Finished(OutDenied))
        && (row.status == Cancelled ==> stage == if stuck then Raised else Finished(OutCancelled))
        && (row.status == Invalidated ==> stage == if stuck then Raised else Finished(OutInvalidated))
        && (row.status == Expired || due ==> stage == if stuck then Raised else Finished(OutExpired))
        && (!due && open && unmet && stuck ==> stage == Raised)
        && (!due && ((open && unmet && !stuck) || (row.status == Consumed && unmet)) ==>
              && stage.Finished?
              && (!Resumable(v.scope, row.scope) ==> stage.kind == OutRevokedAuthority)
              && (Resumable(v.scope, row.scope) && !SameSubject(row, v) ==> stage.kind == OutInvalidated)
              && (Resumable(v.scope, row.scope) && SameSubject(row, v) ==>
                    stage.kind == if !v.authorityValid then OutRevokedAuthority else OutUnavailableIntegration))
        && (!due && row.status == Pending && !unmet ==> stage == Finished(OutPaused))
        && (!due && row.status in {Approved, Consumed} && !unmet ==>
              && (waits && run.cancelling ==> stage == Raised)
              && (waits && !run.cancelling ==> stage == Finished(OutResumed))
              && (run.status in {RunQueued, RunRunning, RunCompleted} ==> stage == Finished(OutResumed))
              && (!waits && run.status !in {RunQueued, RunRunning, RunCompleted} ==> stage == Finished(OutInvalidated)))
  {
    if !Visible(w, scope, id) {
      ResumeUnseen(w, scope, id, v, now);
    } else {
      ResumeDoes(w, scope, id, v, now);
      var row := w.ledger.rows[id];
      MismatchExactly(row, v);
      if FindMismatch(row, v).Some? { MismatchKind(row, v); }
      hide Resume, Effect, FindMismatch, Matches, Resumable, SameSubject;
    }
  }

  // ----- Crashes -----

  /** The tables between the two writes of a call: the ledger is written, the run is not. */
  function HalfWay(w: World, scope: Scope, id: Id, v: Validation, now: int): World
    requires Visible(w, scope, id)
  {
    World(Effect(w, scope, id, v, now).ledger, w.runs)
  }

  lemma EffectLedger(w: World, scope: Scope, id: Id, v: Validation, now: int)
    requires Visible(w, scope, id)
    ensures var row, l' := w.ledger.rows[id], Effect(w, scope, id, v, now).ledger;
      && id in l'.rows && l'.rows[id].scope == row.scope && l'.rows[id].subject == row.subject
      && (l' == w.ledger ||
            (if IsOpen(row.status) && !Due(row, now) && Matches(row, v) then l'.rows[id].status == Consumed
             else l'.rows[id].status in {Expired, Invalidated}))
  {
    hide FindMismatch, Matches, Resumable;
  }

  lemma MatchesSame(a: Request, b: Request, v: Validation)
    requires a.scope == b.scope && a.subject == b.subject
    ensures Matches(a, v) <==> Matches(b, v)
  {}

  /** A call that crashed between writing the ledger and writing the run is completed by
      repeating it, at any later time, with facts that still match (or still do not):
      ledger and run end as they would have without the crash. */
  lemma RepeatCompletes(w: World, scope: Scope, id: Id, v: Validation, now: int, now': int)
    requires Visible(w, scope, id)
    requires HalfWay(w, scope, id, v, now).ledger != w.ledger
    ensures Resume(HalfWay(w, scope, id, v, now), scope, id, v, now').0 == Resume(w, scope, id, v, now).0
  {
    var half, row := HalfWay(w, scope, id, v, now), w.ledger.rows[id];
    EffectLedger(w, scope, id, v, now);
    MatchesSame(row, half.ledger.rows[id], v);
    ResumeDoes(w, scope, id, v, now);
    assert Visible(half, scope, id);
    ResumeDoes(half, scope, id, v, now');
    HalfThenRun(w, scope, id, v, now);
    hide Matches, Resumable, Released, Stopped, HalfWay, FindMismatch, Resume;
  }

  lemma HalfThenRun(w: World, scope: Scope, id: Id, v: Validation, now: int)
    requires Visible(w, scope, id) && HalfWay(w, scope, id, v, now).ledger != w.ledger
    ensures var half, row := HalfWay(w, scope, id, v, now), w.ledger.rows[id];
      Effect(w, scope, id, v, now) ==
        if IsOpen(row.status) && !Due(row, now) && Matches(row, v) then Released(half, scope) else Stopped(half, scope)
  {
    hide FindMismatch, Matches, Resumable, Expire, ClosedRow, ConsumedRow;
  }

  /** A call that has finished changes nothing when it is repeated. */
  lemma RepeatIsNoOp(w: World, scope: Scope, id: Id, v: Validation, now: int, now': int)
    requires Visible(w, scope, id) && HalfWay(w, scope, id, v, now).ledger != w.ledger
    ensures var last := Resume(w, scope, id, v, now).0; Resume(last, scope, id, v, now').0 == last
  {
    var last, row := Effect(w, scope, id, v, now), w.ledger.rows[id];
    EffectLedger(w, scope, id, v, now);
    MatchesSame(row, last.ledger.rows[id], v);
    ResumeDoes(w, scope, id, v, now);
    HalfThenRun(w, scope, id, v, now);
    assert Visible(last, scope, id);
    ResumeDoes(last, scope, id, v, now');
    ReleasedTwice(HalfWay(w, scope, id, v, now), scope);
    hide Matches, Resumable, Released, Stopped, HalfWay, FindMismatch, Resume;
  }

  lemma ReleasedTwice(w: World, scope: Scope)
    ensures Released(Released(w, scope), scope) == Released(w, scope)
    ensures Stopped(Stopped(w, scope), scope) == Stopped(w, scope)
  {
    hide Resumable;
    if scope.run in w.runs { SelfResumable(w.runs[scope.run], scope); }
  }

  lemma SelfResumable(row: RunRow, scope: Scope)
    ensures Resumable(scope, row.scope) ==>
      && Resumable(scope, row.(status := RunQueued, waiting := None).scope)
      && Resumable(scope, row.(status := RunCancelled, waiting := None, cancelling := true).scope)
  {}

  /** Resuming on an approval that was denied, expired, invalidated or cancelled leaves the
      run that waits for it cancelled, or unknown where an effect of it is uncertain. */
  lemma RefusedRunStops(w: World, scope: Scope, id: Id, v: Validation, now: int)
    requires Visible(w, scope, id) && Refused(w.ledger.rows[id].status)
    requires RunGet(w.runs, scope, scope.run).Ok?
    requires w.runs[scope.run].status == RunWaitingForApproval && !w.runs[scope.run].parent
    ensures var runs := Resume(w, scope, id, v, now).0.runs;
      && scope.run in runs && runs[scope.run].cancelling
      && runs[scope.run].status == (if w.runs[scope.run].uncertain then RunUnknown else RunCancelled)
  {
    ResumeDoes(w, scope, id, v, now);
    hide Resume;
  }

  // ----- Which approval the run waits for is not looked at -----

  /** A call on an approval that can be, or has been, consumed lets the run go whatever
      approval it waits for. */
  lemma ReleasesWhateverItWaitsFor(w: World, scope: Scope, id: Id, v: Validation, now: int)
    requires Visible(w, scope, id) && Matches(w.ledger.rows[id], v)
    requires w.ledger.rows[id].status == Consumed || (w.ledger.rows[id].status == Approved && !Due(w.ledger.rows[id], now))
    requires RunGet(w.runs, scope, scope.run).Ok?
    ensures var runs := Resume(w, scope, id, v, now).0.runs;
      && scope.run in runs
      && (w.runs[scope.run].status == RunWaitingForApproval ==>
            (runs[scope.run].status == RunQueued <==> !w.runs[scope.run].cancelling))
  {
    ResumeDoes(w, scope, id, v, now);
    hide Resume;
  }

  /** The run was let go from a wait for an approval that is not consumed. */
  predicate WronglyReleased(w: World, w': World, run: Id) {
    && run in w.runs && w.runs[run].status == RunWaitingForApproval
    && run in w'.runs && w'.runs[run].status == RunQueued
    && (w.runs[run].waiting.Some? ==>
          w.runs[run].waiting.value !in w'.ledger.rows || w'.ledger.rows[w.runs[run].waiting.value].status != Consumed)
  }

  /** Exactly when a call lets a run go from a wait for another approval: when it names an
      approval that matches and is, or can be, consumed, while the run, not being
      cancelled, waits for one that is not consumed.  A call that names the approval its
      run waits for never does. */
  lemma WronglyReleasedExactly(w: World, scope: Scope, id: Id, v: Validation, now: int)
    requires Sound(w.ledger) && Visible(w, scope, id) && RunGet(w.runs, scope, scope.run).Ok?
    requires w.runs[scope.run].status == RunWaitingForApproval && w.runs[scope.run].waiting.Some?
    ensures var row, run := w.ledger.rows[id], w.runs[scope.run];
      var awaited := run.waiting.value;
      WronglyReleased(w, Resume(w, scope, id, v, now).0, scope.run) <==>
        && Matches(row, v) && !run.cancelling
        && (row.status == Consumed || (row.status == Approved && !Due(row, now)))
        && awaited != id && (awaited !in w.ledger.rows || w.ledger.rows[awaited].status != Consumed)
  {
    ResumeDoes(w, scope, id, v, now);
    hide Resume, Sound, FindMismatch, Resumable;
    EffectRun(w, scope, id, v, now);
    EffectOther(w, scope, id, v, now, w.runs[scope.run].waiting.value);
    hide Effect;
  }

  /** The run was ended although the approval it waits for was not turned down. */
  predicate WronglyStopped(w: World, w': World, run: Id) {
    && run in w.runs && w.runs[run].status == RunWaitingForApproval
    && run in w'.runs && w'.runs[run].status in {RunCancelled, RunUnknown}
    && (w.runs[run].waiting.Some? ==>
          w.runs[run].waiting.value !in w'.ledger.rows || !Refused(w'.ledger.rows[w.runs[run].waiting.value].status))
  }

  /** The call will find its approval turned down, or turn it down itself. */
  predicate TurnsDown(row: Request, v: Validation, now: int) {
    || Refused(row.status)
    || (IsOpen(row.status) && (row.expiresAt <= now || !Matches(row, v)))
  }

  /** Exactly when a call ends a run that waits for another approval: when it names one that
      is, or is about to be, turned down, while the run waits for one that is not, and does
      not expire along with it.  A call that names the approval its run waits for never does. */
  lemma WronglyStoppedExactly(w: World, scope: Scope, id: Id, v: Validation, now: int)
    requires Sound(w.ledger) && Visible(w, scope, id) && RunGet(w.runs, scope, scope.run).Ok?
    requires w.runs[scope.run].status == RunWaitingForApproval && w.runs[scope.run].waiting.Some?
    ensures var row, run := w.ledger.rows[id], w.runs[scope.run];
      var awaited := run.waiting.value;
      WronglyStopped(w, Resume(w, scope, id, v, now).0, scope.run) <==>
        && TurnsDown(row, v, now) && !run.parent && awaited != id
        && (awaited in w.ledger.rows ==>
              !Refused(w.ledger.rows[awaited].status) && !(Due(row, now) && Due(w.ledger.rows[awaited], now)))
  {
    ResumeDoes(w, scope, id, v, now);
    hide Resume, Sound, FindMismatch, Resumable;
    EffectStops(w, scope, id, v, now);
    EffectRefuses(w, scope, id, v, now, w.runs[scope.run].waiting.value);
    hide Effect;
  }

  lemma EffectStops(w: World, scope: Scope, id: Id, v: Validation, now: int)
    requires Visible(w, scope, id) && RunGet(w.runs, scope, scope.run).Ok?
    requires w.runs[scope.run].status == RunWaitingForApproval
    ensures var row, after := w.ledger.rows[id], Effect(w, scope, id, v, now);
      && scope.run in after.runs
      && (after.runs[scope.run].status in {RunCancelled, RunUnknown} <==> TurnsDown(row, v, now) && !w.runs[scope.run].parent)
      && (TurnsDown(row, v, now) ==> id in after.ledger.rows && Refused(after.ledger.rows[id].status))
  {
    hide FindMismatch, Matches, Resumable;
  }

  lemma EffectRefuses(w: World, scope: Scope, id: Id, v: Validation, now: int, other: Id)
    requires Visible(w, scope, id)
    ensures var after := Effect(w, scope, id, v, now);
      other != id ==>
        && (other in after.ledger.rows <==> other in w.ledger.rows)
        && (other in w.ledger.rows ==>
              (Refused(after.ledger.rows[other].status) <==>
                 Refused(w.ledger.rows[other].status) || (Due(w.ledger.rows[id], now) && Due(w.ledger.rows[other], now))))
  {
    hide FindMismatch, Matches, Resumable;
  }

  lemma EffectRun(w: World, scope: Scope, id: Id, v: Validation, now: int)
    requires Visible(w, scope, id) && RunGet(w.runs, scope, scope.run).Ok?
    requires w.runs[scope.run].status == RunWaitingForApproval
    ensures var row, after := w.ledger.rows[id], Effect(w, scope, id, v, now);
      && scope.run in after.runs
      && (after.runs[scope.run].status == RunQueued <==>
            && Matches(row, v) && !w.runs[scope.run].cancelling
            && (row.status == Consumed || (row.status == Approved && !Due(row, now))))
      && (after.runs[scope.run].status == RunQueued ==> id in after.ledger.rows && after.ledger.rows[id].status == Consumed)
  {
    hide FindMismatch, Matches, Resumable;
  }

  lemma EffectOther(w: World, scope: Scope, id: Id, v: Validation, now: int, other: Id)
    requires Visible(w, scope, id)
    ensures var after := Effect(w, scope, id, v, now);
      other != id ==>
        && (other in after.ledger.rows <==> other in w.ledger.rows)
        && (other in w.ledger.rows ==>
              (after.ledger.rows[other].status == Consumed <==> w.ledger.rows[other].status == Consumed))
  {
    hide FindMismatch, Matches, Resumable;
  }

  // ----- Asking -----

  /** Exactly when a run is paused on an approval, and what is left if it is not: a request that
      was taken in, but that the run could not be paused on, is invalidated, and the run is
      never touched. */
  lemma AskForExactly(w: World, scope: Scope, sub: Submission, able: bool, newId: Id, now: int)
    requires Sound(w.ledger) && newId !in w.ledger.rows
    ensures var (w', out) := AskFor(w, scope, sub, able, newId, now);
      var seen := scope.run in w.runs && Resumable(scope, w.runs[scope.run].scope) && now < sub.expiresAt;
      && (out.Ok? <==> seen && able && w.runs[scope.run].status == RunRunning)
      && (out.Ok? ==>
            && out.value.id in w'.ledger.rows && w'.ledger.rows[out.value.id] == out.value
            && out.value.status in {Pending, Approved} && SameWork(out.value, scope, sub.subject)
            && w'.runs == w.runs[scope.run :=
                 w.runs[scope.run].(status := RunWaitingForApproval, waiting := Some(out.value.id))])
      && (out.Err? ==> w'.runs == w.runs && (!seen ==> w' == w))
      && (out.Err? && seen ==>
            var created := Create(w.ledger, Some(w.runs[scope.run].scope), scope, sub, newId, now);
            && created.out.Ok?
            && w'.ledger == Invalidate(created.ledger, scope, created.out.value.id, UNPAUSED, now).ledger
            && (Resumable(scope, created.out.value.scope) ==>
                  created.out.value.id in w'.ledger.rows && w'.ledger.rows[created.out.value.id].status == Invalidated))
  {
    var owner := if scope.run in w.runs then Some(w.runs[scope.run].scope) else None;
    ApprovalLedger.CreateExactly(w.ledger, owner, scope, sub, newId, now);
    if Create(w.ledger, owner, scope, sub, newId, now).out.Ok? {
      CreatedOpen(w.ledger, owner, scope, sub, newId, now);
      var created := Create(w.ledger, owner, scope, sub, newId, now);
      CloseExactly(created.ledger, scope, created.out.value.id, UNPAUSED, now);
    }
    hide Sound, Create, Invalidate, UNPAUSED, Resumable, SameWork;
  }

  // ----- Asking again -----

  /** A call of `request` that crashed after creating the approval is completed by repeating
      it: the open approval is found again and the run is paused on that one. */
  lemma AskAgainCompletes(w: World, scope: Scope, sub: Submission, sub': Submission, newId: Id, newId': Id, now: int, now': int)
    requires Sound(w.ledger) && newId !in w.ledger.rows && sub'.subject == sub.subject && sub'.expiresAt > now'
    requires AskFor(w, scope, sub, true, newId, now).1.Ok?
    ensures var half := World(AskFor(w, scope, sub, true, newId, now).0.ledger, w.runs);
      AskFor(half, scope, sub', true, newId', now') == AskFor(w, scope, sub, true, newId, now)
  {
    var owner := if scope.run in w.runs then Some(w.runs[scope.run].scope) else None;
    var created := Create(w.ledger, owner, scope, sub, newId, now);
    CreateSound(w.ledger, owner, scope, sub, newId, now);
    CreatedOpen(w.ledger, owner, scope, sub, newId, now);
    hide Sound, Create, OpenFor, LedgerStep;
    var approval := created.out.value;
    CreateReuses(created.ledger, owner, scope, sub', newId', now', approval.id);
  }

  lemma CreatedOpen(l: Ledger, owner: Option<Scope>, scope: Scope, sub: Submission, newId: Id, now: int)
    requires Sound(l) && newId !in l.rows && Create(l, owner, scope, sub, newId, now).out.Ok?
    ensures owner.Some? && Resumable(scope, owner.value)
    ensures var c := Create(l, owner, scope, sub, newId, now);
      && c.out.value.id in c.ledger.rows && c.ledger.rows[c.out.value.id] == c.out.value
      && IsOpen(c.out.value.status) && SameWork(c.out.value, scope, sub.subject)
  {
    LastOpen(l, scope, sub.subject);
    var found := OpenFor(l, scope, sub.subject);
    if found != [] { SoundRow(l, Last(found)); }
    hide Sound, OpenFor;
  }
}

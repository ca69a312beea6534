/**
 The approval ledger: requests that are created, decided, and consumed at most once.
 Each operation is one transaction; one that raises leaves the ledger as it was, so the
 expiry updates that `decide` and `consume` make just before they raise do not last.
 */
module ApprovalLedger {
  import opened Basics
  import opened Listing

  datatype Scope = Scope(
    tenant: string, workspace: string, agent: string, agentVersion: string, grants: set<string>,
    actor: Option<string>, run: Id, conversation: Option<string>)

  /** `requested.assert_resumable(persisted)` passes. */
  predicate Resumable(requested: Scope, persisted: Scope) {
    && requested == persisted.(grants := requested.grants)
    && persisted.grants <= requested.grants
  }

  datatype ApprovalStatus = Pending | Approved | Denied | Expired | Consumed | Invalidated | Cancelled
  datatype Decision = Approve | Deny

  predicate IsOpen(s: ApprovalStatus) {
    s in {Pending, Approved}
  }

  /** What is to be approved: one call of one tool in one step, under one policy. */
  datatype Subject = Subject(
    step: string, tool: string, toolVersion: string, schemaVersion: string, arguments: string, policy: string)

  datatype Submission = Submission(subject: Subject, effect: Option<string>, expiresAt: int)

  datatype Request = Request(
    id: Id, scope: Scope, subject: Subject, effect: Option<string>, status: ApprovalStatus, revision: nat,
    decision: Option<Decision>, decidedBy: Option<string>, reason: Option<string>, decisionKey: Option<string>,
    createdAt: int, expiresAt: int, decidedAt: Option<int>, consumedAt: Option<int>, updatedAt: int)

  datatype Ledger = Ledger(ids: seq<Id>, rows: map<Id, Request>)

  datatype LedgerError = NotFound | Conflict | Invalid
  datatype Answer<+T> = Ok(value: T) | Err(error: LedgerError)
  datatype Txn<+T> = Txn(ledger: Ledger, out: Answer<T>)

  // ----- Operations -----

  predicate SameWork(row: Request, scope: Scope, subject: Subject) {
    && row.scope.tenant == scope.tenant && row.scope.workspace == scope.workspace && row.scope.run == scope.run
    && row.subject == subject
  }

  /** The open requests for this work, in table order. */
  function OpenFor(l: Ledger, scope: Scope, subject: Subject): seq<Id> {
    Picked(l.ids, set id | id in l.rows && IsOpen(l.rows[id].status) && SameWork(l.rows[id], scope, subject))
  }

  function NewRequest(id: Id, scope: Scope, sub: Submission, now: int): Request {
    Request(id, scope, sub.subject, sub.effect, Pending, 0, None, None, None, None, now, sub.expiresAt, None, None, now)
  }

  /** `owner` is the scope of the run row, if there is one; `newId` is the uuid drawn. */
  function Create(l: Ledger, owner: Option<Scope>, scope: Scope, sub: Submission, newId: Id, now: int): Txn<Request> {
    if sub.expiresAt <= now then Txn(l, Err(Invalid))
    else if owner.None? || !Resumable(scope, owner.value) then Txn(l, Err(NotFound))
    else
      var found := OpenFor(l, scope, sub.subject);
      if found != [] && Last(found) in l.rows then Txn(l, Ok(l.rows[Last(found)]))
      else
        var row := NewRequest(newId, scope, sub, now);
        Txn(Ledger(l.ids + [newId], l.rows[newId := row]), Ok(row))
  }

  /** Read a request on behalf of `scope`. */
  function Get(l: Ledger, scope: Scope, id: Id): Answer<Request> {
    if id !in l.rows || !Resumable(scope, l.rows[id].scope) then Err(NotFound) else Ok(l.rows[id])
  }

  function Put(l: Ledger, id: Id, row: Request): Ledger {
    l.(rows := l.rows[id := row])
  }

  predicate SameTenant(a: Request, b: Request) {
    a.scope.tenant == b.scope.tenant && a.scope.workspace == b.scope.workspace
  }

  /** No other request of the tenant and workspace was decided under `key`. */
  predicate KeyFree(l: Ledger, id: Id, row: Request, key: string) {
    forall other :: other in l.rows && other != id && SameTenant(l.rows[other], row) ==>
      l.rows[other].decisionKey != Some(key)
  }

  function Decided(row: Request, decision: Decision, approver: Name, reason: Name, key: Name, now: int): Request {
    row.(status := if decision == Approve then Approved else Denied, revision := row.revision + 1,
         decision := Some(decision), decidedBy := Some(approver), reason := Some(reason), decisionKey := Some(key),
         decidedAt := Some(now), updatedAt := now)
  }

  function Decide(l: Ledger, scope: Scope, id: Id, decision: Decision, approver: Name, reason: Name, key: Name, now: int): Txn<Request> {
    match Get(l, scope, id)
    case Err(e) => Txn(l, Err(e))
    case Ok(row) =>
      if row.status != Pending then
        if row.decisionKey == Some(key) && row.decision == Some(decision) then Txn(l, Ok(row)) else Txn(l, Err(Conflict))
      else if row.expiresAt <= now then Txn(l, Err(Conflict))
      else if !KeyFree(l, id, row, key) then Txn(l, Err(Conflict))
      else
        var decided := Decided(row, decision, approver, reason, key, now);
        Txn(Put(l, id, decided), Ok(decided))
  }

  function ConsumedRow(row: Request, now: int): Request {
    row.(status := Consumed, revision := row.revision + 1, consumedAt := Some(now), updatedAt := now)
  }

  function Consume(l: Ledger, scope: Scope, id: Id, expected: nat, now: int): Txn<Request> {
    match Get(l, scope, id)
    case Err(e) => Txn(l, Err(e))
    case Ok(row) =>
      if row.status != Approved || row.expiresAt <= now || row.revision != expected then Txn(l, Err(Conflict))
      else
        var consumed := ConsumedRow(row, now);
        Txn(Put(l, id, consumed), Ok(consumed))
  }

  function ClosedRow(row: Request, closed: ApprovalStatus, reason: Name, now: int): Request {
    row.(status := closed, revision := row.revision + 1, reason := Some(reason), updatedAt := now)
  }

  /** `invalidate` and `cancel`: close an open request, or answer with one closed that way. */
  function CloseAs(l: Ledger, scope: Scope, id: Id, closed: ApprovalStatus, reason: Name, now: int): Txn<Request> {
    match Get(l, scope, id)
    case Err(e) => Txn(l, Err(e))
    case Ok(row) =>
      if row.status == closed then Txn(l, Ok(row))
      else if !IsOpen(row.status) then Txn(l, Err(Conflict))
      else
        var done := ClosedRow(row, closed, reason, now);
        Txn(Put(l, id, done), Ok(done))
  }

  function Invalidate(l: Ledger, scope: Scope, id: Id, reason: Name, now: int): Txn<Request> {
    CloseAs(l, scope, id, Invalidated, reason, now)
  }

  function Cancel(l: Ledger, scope: Scope, id: Id, reason: Name, now: int): Txn<Request> {
    CloseAs(l, scope, id, Cancelled, reason, now)
  }

  const EXPIRED_REASON: Name := "approval request expired"

  predicate Due(row: Request, now: int) {
    IsOpen(row.status) && row.expiresAt <= now
  }

  function ExpiredRow(row: Request, now: int): Request {
    row.(status := Expired, revision := row.revision + 1, reason := Some(EXPIRED_REASON), updatedAt := now)
  }

  /** Every open request past its expiry is expired, and nothing else changes. */
  function Expire(l: Ledger, now: int): Ledger {
    l.(rows := map id | id in l.rows :: if Due(l.rows[id], now) then ExpiredRow(l.rows[id], now) else l.rows[id])
  }

  /** The requests `expire` lists, and the order in which it works through them. */
  function DueRows(l: Ledger, now: int): seq<Id> {
    Sorted(map id | id in l.rows :: l.rows[id].expiresAt, Picked(l.ids, set id | id in l.rows && Due(l.rows[id], now)))
  }

  // ----- What every ledger keeps -----

  /** How a request's decision fits its status. */
  predicate RowSound(id: Id, row: Request) {
    && row.id == id
    && (row.decision.Some? <==> row.decisionKey.Some?)
    && (row.status == Pending ==> row.decision == None)
    && (row.status in {Approved, Consumed} ==> row.decision == Some(Approve))
    && (row.status == Denied ==> row.decision == Some(Deny))
    && (row.decision.Some? ==> row.decidedAt.Some? && row.decidedAt.value < row.expiresAt)
    && (row.status == Consumed <==> row.consumedAt.Some?)
    && (row.status == Consumed ==> row.consumedAt.value < row.expiresAt)
  }

  ghost predicate OneOpenEach(l: Ledger) {
    forall a, b ::
      (a in l.rows && b in l.rows && IsOpen(l.rows[a].status) && IsOpen(l.rows[b].status)
       && SameWork(l.rows[a], l.rows[b].scope, l.rows[b].subject)) ==> a == b
  }

  ghost predicate KeysUnique(l: Ledger) {
    forall a, b ::
      (a in l.rows && b in l.rows && l.rows[a].decisionKey.Some? && SameTenant(l.rows[a], l.rows[b])
       && l.rows[a].decisionKey == l.rows[b].decisionKey) ==> a == b
  }

  ghost predicate Sound(l: Ledger) {
    && NoDuplicates(l.ids) && (forall id :: id in l.ids <==> id in l.rows)
    && (forall id :: id in l.rows ==> RowSound(id, l.rows[id]))
    && OneOpenEach(l) && KeysUnique(l)
  }

  /** How a request may change: not at all, or by one move that leaves what it is for alone. */
  predicate RowStep(row: Request, row': Request) {
    || row' == row
    || (&& row'.id == row.id && row'.scope == row.scope && row'.subject == row.subject && row'.effect == row.effect
        && row'.createdAt == row.createdAt && row'.expiresAt == row.expiresAt
        && row'.revision == row.revision + 1
        && (row.decision.Some? ==> row'.decision == row.decision && row'.decisionKey == row.decisionKey
                                   && row'.decidedAt == row.decidedAt && row'.decidedBy == row.decidedBy)
        && match row.status
           case Pending => row'.status in {Approved, Denied, Expired, Invalidated, Cancelled}
           case Approved => row'.status in {Consumed, Expired, Invalidated, Cancelled}
           case _ => false)
  }

  ghost predicate LedgerStep(l: Ledger, l': Ledger) {
    && l.ids <= l'.ids
    && (forall id :: id in l.rows ==> id in l'.rows && RowStep(l.rows[id], l'.rows[id]))
    && (forall id :: id in l'.rows && id !in l.rows ==> l'.rows[id].status == Pending)
  }

  // ----- Each operation keeps it -----

  lemma {:induction false} LastOpen(l: Ledger, scope: Scope, subject: Subject)
    ensures var found := OpenFor(l, scope, subject);
      found != [] ==> Last(found) in l.rows && IsOpen(l.rows[Last(found)].status) && SameWork(l.rows[Last(found)], scope, subject)
  {
    var found := OpenFor(l, scope, subject);
    if found != [] { assert found[|found| - 1] in found; }
  }

  lemma CreateSound(l: Ledger, owner: Option<Scope>, scope: Scope, sub: Submission, newId: Id, now: int)
    requires Sound(l) && newId !in l.rows
    ensures Sound(Create(l, owner, scope, sub, newId, now).ledger)
    ensures LedgerStep(l, Create(l, owner, scope, sub, newId, now).ledger)
  {
    LastOpen(l, scope, sub.subject);
    var c := Create(l, owner, scope, sub, newId, now);
    if c.ledger != l {
      var l' := c.ledger;
      assert OpenFor(l, scope, sub.subject) == [];
      NothingOpen(l, scope, sub.subject);
      hide OpenFor;
      AddedSound(l, NewRequest(newId, scope, sub, now));
    } else {
      hide OpenFor;
    }
  }

  lemma NothingOpen(l: Ledger, scope: Scope, subject: Subject)
    requires OpenFor(l, scope, subject) == [] && forall id :: id in l.rows ==> id in l.ids
    ensures forall id :: id in l.rows && IsOpen(l.rows[id].status) ==> !SameWork(l.rows[id], scope, subject)
  {
    forall id | id in l.rows && IsOpen(l.rows[id].status) ensures !SameWork(l.rows[id], scope, subject) {
      assert id !in OpenFor(l, scope, subject);
    }
  }

  lemma AddedSound(l: Ledger, row: Request)
    requires Sound(l) && row.id !in l.rows && row.status == Pending && RowSound(row.id, row)
    requires forall id :: id in l.rows && IsOpen(l.rows[id].status) ==> !SameWork(l.rows[id], row.scope, row.subject)
    ensures var l' := Ledger(l.ids + [row.id], l.rows[row.id := row]); Sound(l') && LedgerStep(l, l')
  {}

  lemma PutOneOpen(l: Ledger, row: Request)
    requires OneOpenEach(l) && row.id in l.rows && RowStep(l.rows[row.id], row)
    ensures OneOpenEach(Put(l, row.id, row))
  {
    var l' := Put(l, row.id, row);
    forall a, b |
      a in l'.rows && b in l'.rows && IsOpen(l'.rows[a].status) && IsOpen(l'.rows[b].status)
      && SameWork(l'.rows[a], l'.rows[b].scope, l'.rows[b].subject)
      ensures a == b
    {
      assert IsOpen(l.rows[a].status) && IsOpen(l.rows[b].status);
      assert SameWork(l.rows[a], l.rows[b].scope, l.rows[b].subject);
    }
  }

  lemma PutKeys(l: Ledger, row: Request)
    requires KeysUnique(l) && row.id in l.rows && RowStep(l.rows[row.id], row)
    requires forall id :: id in l.rows ==> RowSound(id, l.rows[id])
    requires RowSound(row.id, row)
    requires row.decisionKey.Some? && l.rows[row.id].decisionKey == None ==> KeyFree(l, row.id, row, row.decisionKey.value)
    ensures KeysUnique(Put(l, row.id, row))
  {
    assert RowSound(row.id, l.rows[row.id]);
  }

  /** One row moved: everything but the key is a matter of that row. */
  lemma PutSound(l: Ledger, row: Request)
    requires Sound(l) && row.id in l.rows && RowSound(row.id, row) && RowStep(l.rows[row.id], row)
    requires row.decisionKey.Some? && l.rows[row.id].decisionKey == None ==> KeyFree(l, row.id, row, row.decisionKey.value)
    ensures Sound(Put(l, row.id, row)) && LedgerStep(l, Put(l, row.id, row))
  {
    var l' := Put(l, row.id, row);
    assert l'.rows.Keys == l.rows.Keys;
    PutOneOpen(l, row);
    PutKeys(l, row);
    hide OneOpenEach, KeysUnique, RowSound, KeyFree, NoDuplicates;
    forall id ensures id in l'.rows <==> id in l.rows { assert id in l'.rows.Keys <==> id in l.rows.Keys; }
    hide RowStep;
    assert RowStep(l.rows[row.id], row);
    forall id | id in l.rows ensures RowStep(l.rows[id], l'.rows[id]) {
      if id != row.id { UnmovedStep(l.rows[id]); }
    }
  }

  lemma UnmovedStep(row: Request)
    ensures RowStep(row, row)
  {}

  lemma DecideSound(l: Ledger, scope: Scope, id: Id, decision: Decision, approver: Name, reason: Name, key: Name, now: int)
    requires Sound(l)
    ensures var d := Decide(l, scope, id, decision, approver, reason, key, now); Sound(d.ledger) && LedgerStep(l, d.ledger)
  {
    var d := Decide(l, scope, id, decision, approver, reason, key, now);
    if d.ledger != l {
      assert RowSound(id, l.rows[id]);
      hide OneOpenEach, KeysUnique;
      PutSound(l, d.out.value);
    }
  }

  lemma ConsumeSound(l: Ledger, scope: Scope, id: Id, expected: nat, now: int)
    requires Sound(l)
    ensures var c := Consume(l, scope, id, expected, now); Sound(c.ledger) && LedgerStep(l, c.ledger)
  {
    var c := Consume(l, scope, id, expected, now);
    if c.ledger != l {
      assert RowSound(id, l.rows[id]);
      hide OneOpenEach, KeysUnique;
      PutSound(l, c.out.value);
    }
  }

  lemma CloseSound(l: Ledger, scope: Scope, id: Id, closed: ApprovalStatus, reason: Name, now: int)
    requires Sound(l) && closed in {Invalidated, Cancelled}
    ensures var c := CloseAs(l, scope, id, closed, reason, now); Sound(c.ledger) && LedgerStep(l, c.ledger)
  {
    var c := CloseAs(l, scope, id, closed, reason, now);
    if c.ledger != l {
      assert RowSound(id, l.rows[id]);
      hide OneOpenEach, KeysUnique;
      PutSound(l, c.out.value);
    }
  }

  lemma ExpireSound(l: Ledger, now: int)
    requires Sound(l)
    ensures Sound(Expire(l, now)) && LedgerStep(l, Expire(l, now))
  {
    var l' := Expire(l, now);
    hide OneOpenEach, KeysUnique;
    forall id | id in l.rows ensures id in l'.rows && RowStep(l.rows[id], l'.rows[id]) && RowSound(id, l'.rows[id]) {
      assert RowSound(id, l.rows[id]);
    }
    ExpireOneOpen(l, now);
    ExpireKeys(l, now);
  }

  lemma ExpireOneOpen(l: Ledger, now: int)
    requires OneOpenEach(l)
    ensures OneOpenEach(Expire(l, now))
  {
    hide EXPIRED_REASON;
  }

  lemma ExpireKeys(l: Ledger, now: int)
    requires KeysUnique(l)
    ensures KeysUnique(Expire(l, now))
  {
    hide EXPIRED_REASON;
  }

  // ----- Runs of the ledger -----

  datatype Call =
    | CreateCall(owner: Option<Scope>, scope: Scope, sub: Submission, newId: Id, now: int)
    | DecideCall(scope: Scope, id: Id, decision: Decision, approver: Name, reason: Name, key: Name, now: int)
    | ConsumeCall(scope: Scope, id: Id, expected: nat, now: int)
    | InvalidateCall(scope: Scope, id: Id, reason: Name, now: int)
    | CancelCall(scope: Scope, id: Id, reason: Name, now: int)
    | ExpireCall(now: int)

  function Apply(l: Ledger, c: Call): Ledger {
    match c
    case CreateCall(owner, scope, sub, newId, now) => Create(l, owner, scope, sub, newId, now).ledger
    case DecideCall(scope, id, decision, approver, reason, key, now) => Decide(l, scope, id, decision, approver, reason, key, now).ledger
    case ConsumeCall(scope, id, expected, now) => Consume(l, scope, id, expected, now).ledger
    case InvalidateCall(scope, id, reason, now) => Invalidate(l, scope, id, reason, now).ledger
    case CancelCall(scope, id, reason, now) => Cancel(l, scope, id, reason, now).ledger
    case ExpireCall(now) => Expire(l, now)
  }

  /** uuid4 never draws an identifier that is in use. */
  predicate Possible(l: Ledger, c: Call) {
    c.CreateCall? ==> c.newId !in l.rows
  }

  lemma ApplySound(l: Ledger, c: Call)
    requires Sound(l) && Possible(l, c)
    ensures Sound(Apply(l, c)) && LedgerStep(l, Apply(l, c))
  {
    hide Sound, LedgerStep, Create, Decide, Consume, CloseAs, Expire;
    match c
    case CreateCall(owner, scope, sub, newId, now) => CreateSound(l, owner, scope, sub, newId, now);
    case DecideCall(scope, id, decision, approver, reason, key, now) => DecideSound(l, scope, id, decision, approver, reason, key, now);
    case ConsumeCall(scope, id, expected, now) => ConsumeSound(l, scope, id, expected, now);
    case InvalidateCall(scope, id, reason, now) => CloseSound(l, scope, id, Invalidated, reason, now);
    case CancelCall(scope, id, reason, now) => CloseSound(l, scope, id, Cancelled, reason, now);
    case ExpireCall(now) => ExpireSound(l, now);
  }

  /** The ledgers of a run, from first to last, one call apart. */
  ghost predicate History(h: seq<Ledger>, calls: seq<Call>) {
    && |h| == |calls| + 1 && h[0] == Ledger([], map[])
    && forall i :: 0 <= i < |calls| ==> Possible(h[i], calls[i]) && h[i + 1] == Apply(h[i], calls[i])
  }

  lemma {:induction false} HistorySound(h: seq<Ledger>, calls: seq<Call>, n: nat)
    requires History(h, calls) && n < |h|
    ensures Sound(h[n])
  {
    hide Apply;
    if n > 0 {
      HistorySound(h, calls, n - 1);
      hide Sound, LedgerStep;
      ApplySound(h[n - 1], calls[n - 1]);
    }
  }

  lemma HistoryStep(h: seq<Ledger>, calls: seq<Call>, n: nat)
    requires History(h, calls) && n + 1 < |h|
    ensures LedgerStep(h[n], h[n + 1])
  {
    HistorySound(h, calls, n);
    hide Sound, LedgerStep, Apply;
    ApplySound(h[n], calls[n]);
  }

  /** A request that has left the open statuses never changes again. */
  lemma {:induction false} TerminalAbsorbs(h: seq<Ledger>, calls: seq<Call>, i: nat, j: nat, id: Id)
    requires History(h, calls) && i <= j < |h| && id in h[i].rows && !IsOpen(h[i].rows[id].status)
    ensures id in h[j].rows && h[j].rows[id] == h[i].rows[id]
    decreases j
  {
    if i < j {
      hide Sound, History, LedgerStep;
      TerminalAbsorbs(h, calls, i, j - 1, id);
      HistoryLength(h, calls);
      HistoryStep(h, calls, j - 1);
      StepRow(h[j - 1], h[j], id);
    }
  }

  lemma HistoryLength(h: seq<Ledger>, calls: seq<Call>)
    requires History(h, calls)
    ensures |h| == |calls| + 1
  {}

  /** The call consumes the request at exactly its revision. */
  predicate Consumes(l: Ledger, c: Call, id: Id) {
    c.ConsumeCall? && c.id == id && id in l.rows && c.expected == l.rows[id].revision
  }

  lemma OnlyConsumeConsumes(l: Ledger, c: Call, id: Id)
    requires Sound(l) && Possible(l, c) && id in l.rows && l.rows[id].status != Consumed
    requires id in Apply(l, c).rows && Apply(l, c).rows[id].status == Consumed
    ensures Consumes(l, c, id)
  {
    hide Sound, KeyFree, OpenFor, Resumable;
  }

  /** CONSUMED is entered at most once, from an approved request that had not expired,
      by a `consume` at exactly the request's revision. */
  lemma ConsumedOnce(h: seq<Ledger>, calls: seq<Call>, i: nat, j: nat, id: Id)
    requires History(h, calls) && i < |calls| && i < j < |h|
    requires id in h[i].rows && h[i].rows[id].status != Consumed && id in h[i + 1].rows && h[i + 1].rows[id].status == Consumed
    ensures calls[i].ConsumeCall? && calls[i].id == id && calls[i].expected == h[i].rows[id].revision
    ensures h[i].rows[id].status == Approved && h[i].rows[id].decision == Some(Approve)
    ensures h[i + 1].rows[id].consumedAt.Some? && h[i + 1].rows[id].consumedAt.value < h[i].rows[id].expiresAt
    ensures id in h[j].rows && h[j].rows[id].status == Consumed
  {
    assert Possible(h[i], calls[i]) && h[i + 1] == Apply(h[i], calls[i]);
    hide Sound, LedgerStep, History, Apply;
    HistoryLength(h, calls);
    HistorySound(h, calls, i);
    HistorySound(h, calls, i + 1);
    HistoryStep(h, calls, i);
    SoundRow(h[i], id);
    SoundRow(h[i + 1], id);
    StepRow(h[i], h[i + 1], id);
    OnlyConsumeConsumes(h[i], calls[i], id);
    TerminalAbsorbs(h, calls, i + 1, j, id);
  }

  lemma SoundRow(l: Ledger, id: Id)
    requires Sound(l) && id in l.rows
    ensures RowSound(id, l.rows[id])
  {
    hide OneOpenEach, KeysUnique, NoDuplicates;
  }

  lemma StepRow(l: Ledger, l': Ledger, id: Id)
    requires LedgerStep(l, l') && id in l.rows
    ensures id in l'.rows && RowStep(l.rows[id], l'.rows[id])
  {}

  /** In every reachable ledger there is at most one open request for the same work. */
  lemma AtMostOneOpen(h: seq<Ledger>, calls: seq<Call>, n: nat, a: Id, b: Id)
    requires History(h, calls) && n < |h| && a in h[n].rows && b in h[n].rows
    requires IsOpen(h[n].rows[a].status) && IsOpen(h[n].rows[b].status)
    requires SameWork(h[n].rows[a], h[n].rows[b].scope, h[n].rows[b].subject)
    ensures a == b
  {
    HistorySound(h, calls, n);
  }

  /** Creating work that is already open answers with the open request and changes nothing. */
  lemma CreateReuses(l: Ledger, owner: Option<Scope>, scope: Scope, sub: Submission, newId: Id, now: int, id: Id)
    requires Sound(l) && id in l.rows && IsOpen(l.rows[id].status) && SameWork(l.rows[id], scope, sub.subject)
    requires sub.expiresAt > now && owner.Some? && Resumable(scope, owner.value)
    ensures Create(l, owner, scope, sub, newId, now) == Txn(l, Ok(l.rows[id]))
  {
    LastOpen(l, scope, sub.subject);
    assert id in OpenFor(l, scope, sub.subject);
    var found := OpenFor(l, scope, sub.subject);
    assert found != [];
    assert Last(found) == id;
    hide OpenFor;
  }

  /** Deciding again under the same key answers with the request and changes nothing, also
      after the request has moved on; another key or another decision always conflicts. */
  lemma DecideReplays(l: Ledger, scope: Scope, id: Id, decision: Decision, approver: Name, reason: Name, key: Name, now: int,
                      h: seq<Ledger>, calls: seq<Call>, i: nat, j: nat, again: Decision, approver': Name, reason': Name, key': Name, now': int)
    requires History(h, calls) && i <= j < |h| && Decide(h[i], scope, id, decision, approver, reason, key, now).out.Ok?
    requires i < |calls| && calls[i] == DecideCall(scope, id, decision, approver, reason, key, now) && i < j
    ensures id in h[j].rows
    ensures Decide(h[j], scope, id, again, approver', reason', key', now') ==
      if again == decision && key' == key then Txn(h[j], Ok(h[j].rows[id])) else Txn(h[j], Err(Conflict))
  {
    HistorySound(h, calls, i);
    assert id in h[i + 1].rows && h[i + 1].rows[id].decision == Some(decision) && h[i + 1].rows[id].decisionKey == Some(key)
      && Resumable(scope, h[i + 1].rows[id].scope) by {
      assert RowSound(id, h[i].rows[id]);
      assert h[i + 1] == Apply(h[i], calls[i]);
      hide OneOpenEach, KeysUnique;
    }
    hide Sound, History, Decide;
    DecisionStays(h, calls, i + 1, j, id);
    HistorySound(h, calls, j);
    DecidedRow(h[j], id);
    assert Decide(h[j], scope, id, again, approver', reason', key', now') ==
      if again == decision && key' == key then Txn(h[j], Ok(h[j].rows[id])) else Txn(h[j], Err(Conflict)) by {
      DecideAgain(h[j], scope, id, again, approver', reason', key', now');
    }
  }

  /** A scope may go on with what another persisted only if it differs in nothing but grants, and
      lacks none of those. */
  lemma ResumableExactly(requested: Scope, persisted: Scope)
    ensures Resumable(requested, persisted) <==>
      && requested.tenant == persisted.tenant && requested.workspace == persisted.workspace
      && requested.agent == persisted.agent && requested.agentVersion == persisted.agentVersion
      && requested.actor == persisted.actor && requested.run == persisted.run && requested.conversation == persisted.conversation
      && forall g :: g in persisted.grants ==> g in requested.grants
  {}

  /** Exactly when a request is taken in, and what a new one holds. */
  lemma CreateExactly(l: Ledger, owner: Option<Scope>, scope: Scope, sub: Submission, newId: Id, now: int)
    requires Sound(l) && newId !in l.rows
    ensures var c := Create(l, owner, scope, sub, newId, now);
      && (c.out.Ok? <==> now < sub.expiresAt && owner.Some? && Resumable(scope, owner.value))
      && (c.out.Err? ==> c.ledger == l)
      && (c.out.Ok? && (forall id :: id in l.rows && l.rows[id].status in {Pending, Approved} ==> !SameWork(l.rows[id], scope, sub.subject)) ==>
            && c.out.value == Request(newId, scope, sub.subject, sub.effect, Pending, 0, None, None, None, None,
                                      now, sub.expiresAt, None, None, now)
            && c.ledger == Ledger(l.ids + [newId], l.rows[newId := c.out.value]))
  {
    LastOpen(l, scope, sub.subject);
    hide Sound, OpenFor, Resumable, SameWork;
  }

  /** Exactly when an approval is consumed, and that nothing else of the ledger moves. */
  lemma ConsumeExactly(l: Ledger, scope: Scope, id: Id, expected: nat, now: int)
    ensures var c := Consume(l, scope, id, expected, now);
      && (c.out.Ok? <==> id in l.rows && Resumable(scope, l.rows[id].scope) && l.rows[id].status == Approved
                         && now < l.rows[id].expiresAt && l.rows[id].revision == expected)
      && (c.out.Err? ==> c.ledger == l)
      && (c.out.Ok? ==>
            && c.out.value == l.rows[id].(status := Consumed, revision := expected + 1, consumedAt := Some(now), updatedAt := now)
            && c.ledger == Ledger(l.ids, l.rows[id := c.out.value]))
  {}

  /** Exactly when a pending request is decided: by someone of its scope, before it expires,
      under a key that its tenant and workspace have not used; and what is then on record. */
  lemma DecideExactly(l: Ledger, scope: Scope, id: Id, decision: Decision, approver: Name, reason: Name, key: Name, now: int)
    requires Sound(l) && id in l.rows && l.rows[id].status == Pending
    ensures var d := Decide(l, scope, id, decision, approver, reason, key, now);
      && (d.out.Ok? <==> Resumable(scope, l.rows[id].scope) && now < l.rows[id].expiresAt
                         && forall other :: other in l.rows && SameTenant(l.rows[other], l.rows[id]) ==>
                              l.rows[other].decisionKey != Some(key))
      && (d.out.Err? ==> d.ledger == l)
      && (d.out.Ok? ==>
            && d.out.value == l.rows[id].(
                 status := if decision == Approve then Approved else Denied, revision := l.rows[id].revision + 1,
                 decision := Some(decision), decidedBy := Some(approver), reason := Some(reason), decisionKey := Some(key),
                 decidedAt := Some(now), updatedAt := now)
            && d.ledger == Ledger(l.ids, l.rows[id := d.out.value]))
  {
    SoundRow(l, id);
    hide Sound;
  }

  /** Exactly when a request can be closed, how, and that closing it again changes nothing. */
  lemma CloseExactly(l: Ledger, scope: Scope, id: Id, reason: Name, now: int)
    ensures var i, c := Invalidate(l, scope, id, reason, now), Cancel(l, scope, id, reason, now);
      var seen := id in l.rows && Resumable(scope, l.rows[id].scope);
      var open := seen && l.rows[id].status in {Pending, Approved};
      && (i.out.Ok? <==> seen && (open || l.rows[id].status == Invalidated))
      && (c.out.Ok? <==> seen && (open || l.rows[id].status == Cancelled))
      && (i.out.Ok? ==> i.ledger == Ledger(l.ids, l.rows[id := i.out.value]))
      && (c.out.Ok? ==> c.ledger == Ledger(l.ids, l.rows[id := c.out.value]))
      && (i.out.Err? ==> i.ledger == l) && (c.out.Err? ==> c.ledger == l)
      && (open ==>
            var row := l.rows[id];
            && i.out.value == row.(status := Invalidated, revision := row.revision + 1, reason := Some(reason), updatedAt := now)
            && c.out.value == row.(status := Cancelled, revision := row.revision + 1, reason := Some(reason), updatedAt := now))
      && (i.out.Ok? && !open ==> i.out.value == l.rows[id]) && (c.out.Ok? && !open ==> c.out.value == l.rows[id])
  {
    hide Resumable;
  }

  /** Exactly which requests expire, and what is then on record. */
  lemma ExpireExactly(l: Ledger, now: int, id: Id)
    ensures var l' := Expire(l, now);
      && l'.ids == l.ids && (id in l'.rows <==> id in l.rows)
      && (id in l.rows ==>
            var row := l.rows[id];
            if row.status in {Pending, Approved} && row.expiresAt <= now
            then l'.rows[id] == row.(status := Expired, revision := row.revision + 1, reason := Some(EXPIRED_REASON), updatedAt := now)
            else l'.rows[id] == row)
  {
    hide EXPIRED_REASON;
  }

  predicate ExpiresBefore(l: Ledger, a: Id, b: Id) {
    && a in l.rows && b in l.rows
    && (l.rows[a].expiresAt < l.rows[b].expiresAt || (l.rows[a].expiresAt == l.rows[b].expiresAt && TextLess(a, b)))
  }

  /** The listing to expire holds each due request once, the one that expires first coming first. */
  lemma DueRowsListed(l: Ledger, now: int)
    requires Sound(l)
    ensures var rows := DueRows(l, now);
      && (forall id :: id in rows <==> id in l.rows && l.rows[id].status in {Pending, Approved} && l.rows[id].expiresAt <= now)
      && NoDuplicates(rows)
      && forall i, j :: 0 <= i < j < |rows| ==> ExpiresBefore(l, rows[i], rows[j])
  {
    var times := map id | id in l.rows :: l.rows[id].expiresAt;
    var due := Picked(l.ids, set id | id in l.rows && Due(l.rows[id], now));
    PickedNoDuplicates(l.ids, set id | id in l.rows && Due(l.rows[id], now));
    SortedInOrder(times, due);
    hide OneOpenEach, KeysUnique, RowSound, Sorted, Picked;
    var rows := DueRows(l, now);
    assert rows == Sorted(times, due);
    forall i, j | 0 <= i < j < |rows| ensures ExpiresBefore(l, rows[i], rows[j]) {
      assert Precedes(times, rows[i], rows[j]);
    }
  }

  lemma DecidedRow(l: Ledger, id: Id)
    requires Sound(l) && id in l.rows && l.rows[id].decision.Some?
    ensures l.rows[id].status != Pending
  {
    assert RowSound(id, l.rows[id]);
  }

  lemma DecideAgain(l: Ledger, scope: Scope, id: Id, decision: Decision, approver: Name, reason: Name, key: Name, now: int)
    requires id in l.rows && l.rows[id].status != Pending && Resumable(scope, l.rows[id].scope)
    ensures Decide(l, scope, id, decision, approver, reason, key, now) ==
      if l.rows[id].decisionKey == Some(key) && l.rows[id].decision == Some(decision) then Txn(l, Ok(l.rows[id]))
      else Txn(l, Err(Conflict))
  {}

  lemma {:induction false} DecisionStays(h: seq<Ledger>, calls: seq<Call>, i: nat, j: nat, id: Id)
    requires History(h, calls) && i <= j < |h| && id in h[i].rows && h[i].rows[id].decision.Some?
    ensures id in h[j].rows && h[j].rows[id].decision == h[i].rows[id].decision
    ensures h[j].rows[id].decisionKey == h[i].rows[id].decisionKey && h[j].rows[id].scope == h[i].rows[id].scope
    decreases j
  {
    if i < j {
      hide Sound, History;
      DecisionStays(h, calls, i, j - 1, id);
      HistoryLength(h, calls);
      HistoryStep(h, calls, j - 1);
    }
  }
}

/**
 The approval store: an object that holds the ledger and changes it in place.  Each
 method is one transaction and answers, and leaves the ledger, as the function of the
 same name in `ApprovalLedger` says.
 */
module ApprovalStores {
  import opened Basics
  import opened Listing
  import opened ApprovalLedger

  /** The requests expire brings to their end, in the order it works through them. */
  lemma DueFacts(l: Ledger, now: int)
    requires Sound(l)
    ensures NoDuplicates(DueRows(l, now))
    ensures forall id :: id in DueRows(l, now) <==> id in l.rows && Due(l.rows[id], now)
  {
    var due := set id | id in l.rows && Due(l.rows[id], now);
    PickedNoDuplicates(l.ids, due);
    SortedInOrder(map id | id in l.rows :: l.rows[id].expiresAt, Picked(l.ids, due));
  }

  /** The ledger once the first `i` due requests have been expired. */
  ghost predicate ExpiredUpTo(l: Ledger, cur: Ledger, due: seq<Id>, i: nat, now: int) {
    && i <= |due| && cur.ids == l.ids && cur.rows.Keys == l.rows.Keys
    && forall id :: id in l.rows ==> cur.rows[id] == if id in due[..i] then ExpiredRow(l.rows[id], now) else l.rows[id]
  }

  lemma ExpiredNext(l: Ledger, cur: Ledger, due: seq<Id>, i: nat, now: int)
    requires ExpiredUpTo(l, cur, due, i, now) && i < |due| && NoDuplicates(due) && due[i] in l.rows
    ensures due[i] in cur.rows && cur.rows[due[i]] == l.rows[due[i]]
    ensures ExpiredUpTo(l, cur.(rows := cur.rows[due[i] := ExpiredRow(l.rows[due[i]], now)]), due, i + 1, now)
  {
    assert due[i] in cur.rows.Keys;
    assert due[..i + 1] == due[..i] + [due[i]];
    assert due[i] !in due[..i];
    hide NoDuplicates, ExpiredRow;
  }

  lemma ExpiredAll(l: Ledger, cur: Ledger, due: seq<Id>, now: int)
    requires ExpiredUpTo(l, cur, due, |due|, now)
    requires forall id :: id in due <==> id in l.rows && Due(l.rows[id], now)
    ensures cur == Expire(l, now)
  {
    assert due[..|due|] == due;
    assert cur.rows.Keys == Expire(l, now).rows.Keys;
    forall id | id in cur.rows ensures cur.rows[id] == Expire(l, now).rows[id] { assert id in l.rows.Keys; }
    assert cur.rows == Expire(l, now).rows;
  }

  lemma ExpiredNone(l: Ledger, due: seq<Id>, now: int)
    ensures ExpiredUpTo(l, l, due, 0, now)
  {
    assert due[..0] == [];
  }

  lemma ExpiredOne(l: Ledger, id: Id, now: int)
    requires id in l.rows && Due(l.rows[id], now)
    ensures id in Expire(l, now).rows && Expire(l, now).rows[id] == ExpiredRow(l.rows[id], now)
  {}

  class ApprovalStore {
    var ids: seq<Id>
    var rows: map<Id, Request>

    function Table(): Ledger
      reads this
    {
      Ledger(ids, rows)
    }

    ghost predicate Valid()
      reads this
    {
      Sound(Table())
    }

    constructor ()
      ensures Valid() && Table() == Ledger([], map[])
    {
      ids, rows := [], map[];
    }

    method Create(owner: Option<Scope>, scope: Scope, sub: Submission, newId: Id, now: int) returns (out: Answer<Request>)
      requires Valid() && newId !in Table().rows
      modifies this
      ensures Valid()
      ensures Txn(Table(), out) == ApprovalLedger.Create(old(Table()), owner, scope, sub, newId, now)
    {
      CreateSound(Table(), owner, scope, sub, newId, now);
      LastOpen(Table(), scope, sub.subject);
      hide Sound, LedgerStep, OpenFor;
      if sub.expiresAt <= now {
        return Err(Invalid);
      }
      if owner.None? || !Resumable(scope, owner.value) {
        return Err(NotFound);
      }
      var found := OpenFor(Table(), scope, sub.subject);
      if found != [] {
        return Ok(rows[Last(found)]);
      }
      var row := NewRequest(newId, scope, sub, now);
      ids, rows := ids + [newId], rows[newId := row];
      return Ok(row);
    }

    method Decide(scope: Scope, id: Id, decision: Decision, approver: Name, reason: Name, key: Name, now: int)
      returns (out: Answer<Request>)
      requires Valid()
      modifies this
      ensures Valid()
      ensures Txn(Table(), out) == ApprovalLedger.Decide(old(Table()), scope, id, decision, approver, reason, key, now)
    {
      DecideSound(Table(), scope, id, decision, approver, reason, key, now);
      hide Sound, LedgerStep, KeyFree, Decided;
      if id !in rows || !Resumable(scope, rows[id].scope) {
        return Err(NotFound);
      }
      var request := rows[id];
      if request.status != Pending {
        if request.decisionKey == Some(key) && request.decision == Some(decision) {
          return Ok(request);
        }
        return Err(Conflict);
      }
      if request.expiresAt <= now || !KeyFree(Table(), id, request, key) {
        return Err(Conflict);
      }
      var decided := Decided(request, decision, approver, reason, key, now);
      rows := rows[id := decided];
      return Ok(decided);
    }

    method Consume(scope: Scope, id: Id, expected: nat, now: int) returns (out: Answer<Request>)
      requires Valid()
      modifies this
      ensures Valid()
      ensures Txn(Table(), out) == ApprovalLedger.Consume(old(Table()), scope, id, expected, now)
    {
      ConsumeSound(Table(), scope, id, expected, now);
      hide Sound, LedgerStep, ConsumedRow, ClosedRow;
      if id !in rows || !Resumable(scope, rows[id].scope) {
        return Err(NotFound);
      }
      var request := rows[id];
      if request.status != Approved || request.expiresAt <= now || request.revision != expected {
        return Err(Conflict);
      }
      var consumed := ConsumedRow(request, now);
      rows := rows[id := consumed];
      return Ok(consumed);
    }

    method Close(scope: Scope, id: Id, closed: ApprovalStatus, reason: Name, now: int) returns (out: Answer<Request>)
      requires Valid() && closed in {Invalidated, Cancelled}
      modifies this
      ensures Valid()
      ensures Txn(Table(), out) == CloseAs(old(Table()), scope, id, closed, reason, now)
    {
      CloseSound(Table(), scope, id, closed, reason, now);
      hide Sound, LedgerStep, ConsumedRow, ClosedRow;
      if id !in rows || !Resumable(scope, rows[id].scope) {
        return Err(NotFound);
      }
      var request := rows[id];
      if request.status == closed {
        return Ok(request);
      }
      if !IsOpen(request.status) {
        return Err(Conflict);
      }
      var done := ClosedRow(request, closed, reason, now);
      rows := rows[id := done];
      return Ok(done);
    }

    method ExpireAll(now: int) returns (expired: seq<Request>)
      requires Valid()
      modifies this
      ensures Valid() && Table() == Expire(old(Table()), now)
      ensures var due := DueRows(old(Table()), now);
        && |expired| == |due|
        && forall i :: 0 <= i < |due| ==> due[i] in Table().rows && expired[i] == Table().rows[due[i]]
    {
      hide Sound, LedgerStep, DueRows, NoDuplicates, ExpiredUpTo, Expire, RowSound, OneOpenEach, KeysUnique, ExpiredRow;
      ghost var l := Table();
      var due := DueRows(Table(), now);
      DueFacts(l, now);
      ExpireSound(l, now);
      ExpiredNone(l, due, now);
      expired := [];
      var i := 0;
      while i < |due|
        invariant 0 <= i <= |due| && |expired| == i && ExpiredUpTo(l, Table(), due, i, now)
        invariant forall k :: 0 <= k < i ==> due[k] in l.rows && expired[k] == ExpiredRow(l.rows[due[k]], now)
      {
        assert due[i] in due;
        ExpiredNext(l, Table(), due, i, now);
        var request := rows[due[i]];
        if Due(request, now) {
          var row := ExpiredRow(request, now);
          rows := rows[due[i] := row];
          expired := expired + [row];
        }
        i := i + 1;
      }
      ExpiredAll(l, Table(), due, now);
      forall k | 0 <= k < |due| ensures due[k] in Table().rows && expired[k] == Table().rows[due[k]] {
        assert due[k] in due;
        ExpiredOne(l, due[k], now);
      }
    }
  }
}

/**
 Cancelling a task is final for everything below it: the subtree never grows,
 none of it is claimed or completes, and it stays so until an operator retries
 one of its tasks.
 */
module Cancellation {
  import opened Basics
  import opened Redaction
  import opened ChildModels
  import opened Tables
  import opened Listing
  import opened Protocol
  import opened Invariants
  import opened Growth
  import opened Steps
  import opened Transactions
  import opened Runs
  import opened Footprints
  import opened Wakeup

  // ----- The subtree -----

  /** The task `k` parents above `id`. */
  function Ancestor(db: Db, id: Id, k: nat): Option<Id>
    decreases k
  {
    if k == 0 then Some(id)
    else if id in db.tasks && Parent(db, id).Some? then Ancestor(db, Parent(db, id).value, k - 1)
    else None
  }

  /** `root` is `id` or one of its ancestors. */
  ghost predicate InSubtree(db: Db, root: Id, id: Id) {
    id in db.tasks && exists k: nat :: Ancestor(db, id, k) == Some(root)
  }

  lemma InSubtreeUp(db: Db, root: Id, id: Id)
    requires InSubtree(db, root, id) && id != root && Founded(db)
    ensures Parent(db, id).Some? && InSubtree(db, root, Parent(db, id).value)
  {
    var k: nat :| Ancestor(db, id, k) == Some(root);
    assert Ancestor(db, Parent(db, id).value, k - 1) == Some(root);
    assert Earlier(db, Parent(db, id).value, id);
  }

  lemma InSubtreeDown(db: Db, root: Id, id: Id)
    requires id in db.tasks && Parent(db, id).Some? && InSubtree(db, root, Parent(db, id).value)
    ensures InSubtree(db, root, id)
  {
    var k: nat :| Ancestor(db, Parent(db, id).value, k) == Some(root);
    assert Ancestor(db, id, k + 1) == Some(root);
  }

  lemma InSubtreeStep(db: Db, root: Id, id: Id)
    requires id in db.tasks && Founded(db)
    ensures InSubtree(db, root, id) <==>
      id == root || (Parent(db, id).Some? && InSubtree(db, root, Parent(db, id).value))
  {
    assert Ancestor(db, id, 0) == Some(id);
    assert id == root ==> InSubtree(db, root, id);
    hide InSubtree, Founded;
    if InSubtree(db, root, id) && id != root { InSubtreeUp(db, root, id); }
    if Parent(db, id).Some? && InSubtree(db, root, Parent(db, id).value) { InSubtreeDown(db, root, id); }
  }

  /** The rows numbered below `n`. */
  ghost predicate Listed(db: Db, id: Id, n: nat) {
    id in db.tasks && db.tasks[id].rowid < n
  }

  /** The distances once the row `last` has been looked at. */
  function WithRow(db: Db, root: Id, m: map<Id, int>, last: Id): map<Id, int>
    requires last in db.tasks
  {
    var above := Parent(db, last);
    if last == root then m[last := 0]
    else if above.Some? && above.value in m then m[last := m[above.value] - 1]
    else m
  }

  ghost predicate ExactBelow(db: Db, root: Id, m: map<Id, int>, n: nat) {
    forall id :: id in m <==> Listed(db, id, n) && InSubtree(db, root, id)
  }

  lemma ExactPut(db: Db, root: Id, m: map<Id, int>, last: Id, n: nat)
    requires ExactBelow(db, root, m, n) && last in db.tasks
    requires forall id :: Listed(db, id, n + 1) <==> Listed(db, id, n) || id == last
    requires InSubtree(db, root, last) <==> last == root || (Parent(db, last).Some? && InSubtree(db, root, Parent(db, last).value))
    requires Parent(db, last).Some? ==> Listed(db, Parent(db, last).value, n)
    ensures ExactBelow(db, root, WithRow(db, root, m, last), n + 1)
  {
    hide Listed, InSubtree;
  }

  lemma ParentBefore(db: Db, last: Id, n: nat)
    requires Founded(db) && last in db.tasks && db.tasks[last].rowid == n && Parent(db, last).Some?
    ensures Listed(db, Parent(db, last).value, n)
  {
    assert Earlier(db, Parent(db, last).value, last);
  }

  lemma ExactNothing(db: Db, root: Id)
    ensures ExactBelow(db, root, Distances(db, root, 0), 0)
  {}

  lemma DistancesUnfold(db: Db, root: Id, n: nat)
    requires 0 < n <= |db.ids| && db.ids[n - 1] in db.tasks
    ensures Distances(db, root, n) == WithRow(db, root, Distances(db, root, n - 1), db.ids[n - 1])
  {}

  /** The recursive query finds exactly the tasks that have the root above them. */
  lemma {:induction false} DistancesExact(db: Db, root: Id, n: nat)
    requires RowsAgree(db) && Founded(db) && n <= |db.ids|
    ensures ExactBelow(db, root, Distances(db, root, n), n)
  {
    hide *;
    if n == 0 {
      ExactNothing(db, root);
    } else {
      var last := db.ids[n - 1];
      DistancesExact(db, root, n - 1);
      LastRow(db, n - 1);
      InSubtreeStep(db, root, last);
      if Parent(db, last).Some? { ParentBefore(db, last, n - 1); }
      ExactPut(db, root, Distances(db, root, n - 1), last, n - 1);
      DistancesUnfold(db, root, n);
    }
  }

  lemma RowidsFit(db: Db, id: Id)
    requires RowsAgree(db) && id in db.tasks
    ensures db.tasks[id].rowid < |db.ids| && db.ids[db.tasks[id].rowid] == id
  {
    hide RowAgrees, FlagAgrees, NoDuplicates;
  }

  lemma IdInTable(db: Db, i: nat)
    requires RowsAgree(db) && i < |db.ids|
    ensures db.ids[i] in db.tasks && db.tasks[db.ids[i]].rowid == i
  {
    hide RowAgrees, FlagAgrees;
    assert db.ids[i] in db.ids;
    assert db.ids[db.tasks[db.ids[i]].rowid] == db.ids[i];
  }

  lemma LastRow(db: Db, i: nat)
    requires RowsAgree(db) && i < |db.ids|
    ensures db.ids[i] in db.tasks && db.tasks[db.ids[i]].rowid == i
    ensures forall id :: Listed(db, id, i + 1) <==> Listed(db, id, i) || id == db.ids[i]
  {
    IdInTable(db, i);
    hide RowsAgree;
    forall id ensures Listed(db, id, i + 1) <==> Listed(db, id, i) || id == db.ids[i] {
      if id in db.tasks { RowidsFit(db, id); }
    }
  }

  /** `_descendant_ids` lists the subtree: the root and every task it is an ancestor of. */
  lemma DescendantsExact(r: Redactor, db: Db, root: Id)
    requires Good(r, db)
    ensures NoDuplicates(Descendants(db, root))
    ensures forall id :: id in Descendants(db, root) <==> InSubtree(db, root, id)
  {
    GoodParts(r, db);
    assert NoDuplicates(db.ids) by { IdsDistinct(r, db); }
    assert forall id :: id in db.tasks ==> Listed(db, id, |db.ids|);
    hide Good, RowsAgree, Founded, Distances, Descendants;
    DescendantsFacts(db, root);
    DistancesExact(db, root, |db.ids|);
  }

  ghost predicate DeeperThanParent(db: Db, root: Id, m: map<Id, int>) {
    forall id :: id in m && id != root && id in db.tasks && Parent(db, id).Some? ==>
      Parent(db, id).value in m && m[id] == m[Parent(db, id).value] - 1
  }

  lemma ParentListed(db: Db, id: Id, n: nat)
    requires Founded(db) && Listed(db, id, n) && Parent(db, id).Some?
    ensures Parent(db, id).value != id && (n > 0 ==> Listed(db, Parent(db, id).value, n - 1))
  {
    assert Earlier(db, Parent(db, id).value, id);
  }

  ghost predicate NobodysParent(db: Db, m: map<Id, int>, last: Id) {
    forall id :: id in db.tasks && (id in m || id == last) ==> Parent(db, id) != Some(last)
  }

  lemma DeeperPut(db: Db, root: Id, m: map<Id, int>, last: Id)
    requires DeeperThanParent(db, root, m) && last in db.tasks && NobodysParent(db, m, last)
    ensures DeeperThanParent(db, root, WithRow(db, root, m, last))
  {}

  lemma LastNobodysParent(db: Db, root: Id, n: nat)
    requires RowsAgree(db) && Founded(db) && 0 < n <= |db.ids|
    ensures db.ids[n - 1] in db.tasks && NobodysParent(db, Distances(db, root, n - 1), db.ids[n - 1])
  {
    DistancesExact(db, root, n - 1);
    LastRow(db, n - 1);
    var last, m := db.ids[n - 1], Distances(db, root, n - 1);
    hide RowsAgree, InSubtree, Distances;
    forall id | id in db.tasks && (id in m || id == last) ensures Parent(db, id) != Some(last) {
      if Parent(db, id).Some? { ParentListed(db, id, n); }
    }
  }

  lemma DeeperStep(db: Db, root: Id, n: nat)
    requires RowsAgree(db) && Founded(db) && 0 < n <= |db.ids|
    requires DeeperThanParent(db, root, Distances(db, root, n - 1))
    ensures DeeperThanParent(db, root, Distances(db, root, n))
  {
    hide RowsAgree, Founded, DeeperThanParent, NobodysParent;
    LastNobodysParent(db, root, n);
    DeeperPut(db, root, Distances(db, root, n - 1), db.ids[n - 1]);
  }

  /** Children sort before their parents, so the deepest tasks are cancelled first. */
  lemma {:induction false} DistancesOfChildren(db: Db, root: Id, n: nat)
    requires RowsAgree(db) && Founded(db) && n <= |db.ids|
    ensures DeeperThanParent(db, root, Distances(db, root, n))
  {
    hide RowsAgree, Founded;
    if n > 0 {
      DistancesOfChildren(db, root, n - 1);
      DeeperStep(db, root, n);
    }
  }

  lemma DescendantsInOrder(r: Redactor, db: Db, root: Id)
    requires Good(r, db)
    ensures InOrder(Distances(db, root, |db.ids|), Descendants(db, root))
  {
    var m := Distances(db, root, |db.ids|);
    hide *;
    IdsDistinct(r, db);
    DistancesInTable(db, root, |db.ids|);
    PickedNoDuplicates(db.ids, m.Keys);
    SortedInOrder(m, Scan(db, m.Keys));
    SortedDescendants(db, root);
  }

  lemma SortedDescendants(db: Db, root: Id)
    ensures var m := Distances(db, root, |db.ids|);
      Descendants(db, root) == Sorted(m, Scan(db, m.Keys)) && Scan(db, m.Keys) == Picked(db.ids, m.Keys)
  {}

  lemma OrderedByDepth(db: Db, root: Id, m: map<Id, int>, rows: seq<Id>, i: nat, j: nat)
    requires InOrder(m, rows) && DeeperThanParent(db, root, m)
    requires i < |rows| && j < |rows| && rows[i] != root && rows[i] in db.tasks && Parent(db, rows[i]) == Some(rows[j])
    ensures i < j
  {
    assert rows[i] in m;
    assert !Precedes(m, rows[j], rows[i]);
  }

  /** A cancellation reaches every task of the subtree before the task's parent. */
  lemma DeepestFirst(r: Redactor, db: Db, root: Id, i: nat, j: nat)
    requires Good(r, db)
    requires var rows := Descendants(db, root);
      i < |rows| && j < |rows| && rows[i] != root && rows[i] in db.tasks && Parent(db, rows[i]) == Some(rows[j])
    ensures i < j
  {
    hide *;
    GoodParts(r, db);
    DistancesOfChildren(db, root, |db.ids|);
    DescendantsInOrder(r, db, root);
    OrderedByDepth(db, root, Distances(db, root, |db.ids|), Descendants(db, root), i, j);
  }

  // ----- Sealed subtrees -----

  /** Every task of `s` has ended or is running with its cancellation requested, and
      `s` holds the children of its tasks. */
  ghost predicate Sealed(db: Db, s: set<Id>) {
    && (forall id :: id in s ==> id in db.tasks && SealedRow(db.tasks[id]))
    && (forall id :: id in db.tasks && Parent(db, id).Some? && Parent(db, id).value in s ==> id in s)
  }

  predicate SealedRow(row: TaskRow) {
    Terminal(row.status) || (row.status == Running && row.cancelRequested)
  }

  ghost function Subtree(db: Db, root: Id): set<Id> {
    set id | id in db.tasks && InSubtree(db, root, id)
  }

  lemma CancelledRowSealed(r: Redactor, db: Db, db': Db, root: Id, id: Id)
    requires Good(r, db) && CancelShape(db, db', root) && id in Descendants(db, root)
    ensures id in db'.tasks && SealedRow(db'.tasks[id])
  {
    hide Good, Descendants;
    assert id in db.tasks;
    if id in Live(db, Descendants(db, root)) {
      assert NowCancelled(db.tasks[id], db'.tasks[id]);
    } else {
      assert db'.tasks[id] == db.tasks[id];
    }
  }

  lemma SubtreeClosed(db: Db, root: Id)
    requires Founded(db)
    ensures forall id :: id in db.tasks && Parent(db, id).Some? && Parent(db, id).value in Subtree(db, root) ==>
      id in Subtree(db, root)
  {
    forall id | id in db.tasks && Parent(db, id).Some? && Parent(db, id).value in Subtree(db, root)
      ensures id in Subtree(db, root)
    {
      InSubtreeStep(db, root, id);
    }
  }

  lemma SealedFrom(db: Db, db': Db, s: set<Id>)
    requires forall id :: id in s ==> id in db'.tasks && SealedRow(db'.tasks[id])
    requires forall id :: id in db.tasks && Parent(db, id).Some? && Parent(db, id).value in s ==> id in s
    requires db'.tasks.Keys == db.tasks.Keys
    requires forall id :: id in db.tasks ==> id in db'.tasks && Parent(db', id) == Parent(db, id)
    ensures Sealed(db', s)
  {
    forall id | id in db'.tasks && Parent(db', id).Some? && Parent(db', id).value in s ensures id in s {
      assert id in db.tasks.Keys;
    }
  }

  lemma SubtreeDescendants(r: Redactor, db: Db, root: Id)
    requires Good(r, db) && root in db.tasks
    ensures root in Subtree(db, root)
    ensures forall id :: id in Subtree(db, root) ==> id in Descendants(db, root)
  {
    GoodParts(r, db);
    hide Good, RowsAgree, Descendants;
    InSubtreeStep(db, root, root);
    DescendantsExact(r, db, root);
  }

  /** After `request_cancel` the whole subtree is sealed. */
  lemma CancelSeals(r: Redactor, db: Db, root: Id, expected: nat, actor: Name, reason: Name, now: int)
    requires Good(r, db) && RequestCancel(db, r, root, expected, actor, reason, now).out.Ok?
    ensures root in Subtree(db, root)
    ensures Sealed(RequestCancel(db, r, root, expected, actor, reason, now).db, Subtree(db, root))
  {
    hide *;
    var s, db' := Subtree(db, root), RequestCancel(db, r, root, expected, actor, reason, now).db;
    GoodParts(r, db);
    CancelHasShape(r, db, root, expected, actor, reason, now);
    SubtreeDescendants(r, db, root);
    SubtreeClosed(db, root);
    forall id | id in s ensures id in db'.tasks && SealedRow(db'.tasks[id]) { CancelledRowSealed(r, db, db', root, id); }
    ShapeLineage(r, db, root, expected, actor, reason, now);
    SealedFrom(db, db', s);
  }

  lemma ShapeLineage(r: Redactor, db: Db, root: Id, expected: nat, actor: Name, reason: Name, now: int)
    requires Good(r, db)
    ensures var db' := RequestCancel(db, r, root, expected, actor, reason, now).db;
      && db'.tasks.Keys == db.tasks.Keys
      && forall id :: id in db.tasks ==> id in db'.tasks && Parent(db', id) == Parent(db, id)
  {
    hide Good, Safe, RequestCancel, AllNowCancelled, Live, Descendants, LaterTasks;
    RequestCancelSafe(r, db, root, expected, actor, reason, now);
    var db' := RequestCancel(db, r, root, expected, actor, reason, now).db;
    SafeTasks(r, db, db');
    LaterDeps(db, db');
  }

  /** What may still happen to a task of a sealed set. */
  predicate OnlyEnds(row: TaskRow, row': TaskRow) {
    && SealedRow(row')
    && row'.snapshot.attemptCount == row.snapshot.attemptCount
    && (row'.status == Running ==> row.status == Running)
    && (row'.status == Completed ==> row.status == Completed)
    && (Terminal(row.status) ==> row' == row)
  }

  lemma SealedMove(row: TaskRow, row': TaskRow)
    requires SealedRow(row) && Moved(row, row')
    ensures OnlyEnds(row, row')
  {}

  lemma OnlyEndsTrans(a: TaskRow, b: TaskRow, c: TaskRow)
    requires OnlyEnds(a, b) && OnlyEnds(b, c)
    ensures OnlyEnds(a, c)
  {}

  ghost predicate AllOnlyEnd(db: Db, db': Db, s: set<Id>) {
    forall id :: id in s ==> id in db.tasks && id in db'.tasks && OnlyEnds(db.tasks[id], db'.tasks[id])
  }

  lemma NewbornElsewhere(db: Db, db': Db, retried: Option<Id>, s: set<Id>, id: Id)
    requires Sealed(db, s) && Moves(db, db', retried) && id in db'.tasks && id !in db.tasks
    ensures Parent(db', id).Some? ==> Parent(db', id).value !in s
  {
    assert Newborn(db, db'.tasks[id]);
  }

  lemma SealedMoves(db: Db, db': Db, retried: Option<Id>, s: set<Id>)
    requires Sealed(db, s) && Moves(db, db', retried) && LaterTasks(db, db')
    requires retried.Some? ==> retried.value !in s
    ensures Sealed(db', s) && AllOnlyEnd(db, db', s)
  {
    LaterDeps(db, db');
    hide Moved, RetryEdge, LaterTasks;
    forall id | id in s ensures id in db.tasks && id in db'.tasks && OnlyEnds(db.tasks[id], db'.tasks[id]) {
      assert id in db'.tasks.Keys;
      SealedMove(db.tasks[id], db'.tasks[id]);
    }
    forall id | id in db'.tasks && Parent(db', id).Some? && Parent(db', id).value in s ensures id in s {
      if id !in db.tasks { NewbornElsewhere(db, db', retried, s, id); }
    }
  }

  // ----- Continuations -----

  /** No call of the continuation retries a task of `s`. */
  predicate LeavesAlone(s: set<Id>, calls: seq<Call>) {
    forall i :: 0 <= i < |calls| && calls[i].Retry? ==> calls[i].id !in s
  }

  lemma StepKeepsSealed(r: Redactor, db: Db, c: Call, s: set<Id>)
    requires Idempotent(r) && Good(r, db) && Admissible(c) && Sealed(db, s)
    requires c.Retry? ==> c.id !in s
    ensures Sealed(Step(r, db, c), s) && AllOnlyEnd(db, Step(r, db, c), s)
  {
    hide Good, Idempotent, Admissible, Safe, Sealed, AllOnlyEnd, Moves, LaterTasks, Step;
    StepMoves(r, db, c);
    StepSafe(r, db, c);
    SafeTasks(r, db, Step(r, db, c));
    SealedMoves(db, Step(r, db, c), RetriedBy(c), s);
  }

  /** A sealed set stays sealed, gains no task and no attempt, and completes nothing. */
  lemma {:induction false} SealedForever(r: Redactor, db: Db, calls: seq<Call>, s: set<Id>)
    requires Idempotent(r) && Good(r, db) && AllAdmissible(calls) && Sealed(db, s) && LeavesAlone(s, calls)
    ensures Sealed(Run(r, db, calls), s) && AllOnlyEnd(db, Run(r, db, calls), s)
    decreases |calls|
  {
    hide Good, Idempotent, Admissible, Safe, OnlyEnds, Step;
    if calls == [] {
      forall id | id in s ensures OnlyEnds(db.tasks[id], db.tasks[id]) { OnlyEndsRefl(db.tasks[id]); }
    } else {
      var n := |calls| - 1;
      var mid := Run(r, db, calls[..n]);
      hide Sealed;
      SealedForever(r, db, calls[..n], s);
      RunSafe(r, db, calls[..n]);
      SafeGood(r, db, mid);
      assert Admissible(calls[n]);
      StepKeepsSealed(r, mid, calls[n], s);
      forall id | id in s ensures OnlyEnds(db.tasks[id], Step(r, mid, calls[n]).tasks[id]) {
        OnlyEndsTrans(db.tasks[id], mid.tasks[id], Step(r, mid, calls[n]).tasks[id]);
      }
    }
  }

  lemma OnlyEndsRefl(row: TaskRow)
    requires SealedRow(row)
    ensures OnlyEnds(row, row)
  {}

  function RunningIn(db: Db, s: set<Id>): set<Id> {
    set id | id in s && HasStatus(db, id, Running)
  }

  /** From a cancellation on, as long as no task of the subtree is retried: no task
      joins the subtree, none is claimed, none completes that had not, and the
      running ones only become fewer. */
  lemma CancellationIsFinal(r: Redactor, db: Db, root: Id, expected: nat, actor: Name, reason: Name, now: int, calls: seq<Call>)
    requires Idempotent(r) && Good(r, db) && AllAdmissible(calls)
    requires RequestCancel(db, r, root, expected, actor, reason, now).out.Ok?
    requires LeavesAlone(Subtree(db, root), calls)
    ensures var s, after := Subtree(db, root), RequestCancel(db, r, root, expected, actor, reason, now).db;
      var last := Run(r, after, calls);
      && Sealed(after, s) && Sealed(last, s) && AllOnlyEnd(after, last, s)
      && RunningIn(last, s) <= RunningIn(after, s)
  {
    hide Good, Idempotent, Subtree, Sealed, RequestCancel, LeavesAlone, Safe, AllAdmissible, Run, LaterTasks;
    var s, after := Subtree(db, root), RequestCancel(db, r, root, expected, actor, reason, now).db;
    CancelSeals(r, db, root, expected, actor, reason, now);
    RequestCancelSafe(r, db, root, expected, actor, reason, now);
    SafeGood(r, db, after);
    SealedForever(r, after, calls, s);
    hide OthersKept, AllNowCancelled;
  }

  lemma SubtreeOnlyGrows(db: Db, db': Db, root: Id)
    requires LaterTasks(db, db')
    ensures Subtree(db, root) <= Subtree(db', root)
  {
    forall id | id in Subtree(db, root) ensures id in Subtree(db', root) {
      var k: nat :| Ancestor(db, id, k) == Some(root);
      AncestorKept(db, db', id, k);
      assert LaterRow(db.tasks[id], db'.tasks[id]);
      assert Ancestor(db', id, k) == Some(root);
    }
  }

  lemma SealedHoldsSubtree(db: Db, root: Id, s: set<Id>)
    requires Sealed(db, s) && root in s && Founded(db)
    ensures Subtree(db, root) <= s
  {
    forall id | id in Subtree(db, root) ensures id in s {
      var k: nat :| Ancestor(db, id, k) == Some(root);
      BelowSealed(db, s, root, id, k);
    }
  }

  /** While it is sealed, the subtree is the same set of tasks in every later state. */
  lemma SubtreeKept(r: Redactor, db: Db, db': Db, root: Id)
    requires LaterTasks(db, db') && Good(r, db') && Sealed(db', Subtree(db, root)) && root in Subtree(db, root)
    ensures Subtree(db', root) == Subtree(db, root)
  {
    hide *;
    GoodParts(r, db');
    SubtreeOnlyGrows(db, db', root);
    SealedHoldsSubtree(db', root, Subtree(db, root));
  }

  lemma {:induction false} AncestorKept(db: Db, db': Db, id: Id, k: nat)
    requires LaterTasks(db, db') && Ancestor(db, id, k).Some?
    ensures Ancestor(db', id, k) == Ancestor(db, id, k)
    decreases k
  {
    LaterDeps(db, db');
    hide LaterTasks;
    if k > 0 { AncestorKept(db, db', Parent(db, id).value, k - 1); }
  }

  lemma {:induction false} BelowSealed(db: Db, s: set<Id>, root: Id, id: Id, k: nat)
    requires Sealed(db, s) && root in s && id in db.tasks && Founded(db) && Ancestor(db, id, k) == Some(root)
    ensures id in s
    decreases k
  {
    if k > 0 {
      assert Earlier(db, Parent(db, id).value, id);
      BelowSealed(db, s, root, Parent(db, id).value, k - 1);
    }
  }
}

/** How the loops of the store, which work on rows fetched beforehand, follow the cascades. */
module Frames {
  import opened Basics
  import opened Redaction
  import opened ChildModels
  import opened Transitions
  import opened Tables
  import opened Cascade
  import opened Protocol
  import opened Invariants
  import opened Growth
  import opened Steps
  import opened Transactions
  import opened Writes
  import opened Conflicts

  // ----- Blocking -----

  function Prepend(edges: seq<(Id, Id)>, w: Walked): Walked {
    match w
    case Conflict(at) => w
    case Done(rest, left) => Done(edges + rest, left)
  }

  /** A frame of the blocking cascade that has worked through `i` of its rows. */
  ghost predicate BlockProgress(db: Db, x: Id, rows: seq<Id>, i: nat, edges: seq<(Id, Id)>) {
    && i <= |rows|
    && EdgesBlockable(db, edges)
    && WalkRows(DependentGraph(db), x, rows, Blockable(db)) ==
         Prepend(edges, WalkRows(DependentGraph(db), x, rows[i..], Blockable(db) - Children(edges)))
  }

  /** The rows a frame lists. */
  function BlockList(db: Db, x: Id): (rows: seq<Id>)
    ensures forall id :: id in rows ==> id in Blockable(db)
  {
    Picked(Dependents(db, x), Blockable(db))
  }

  lemma BlockStarts(db: Db, x: Id)
    ensures BlockProgress(db, x, BlockList(db, x), 0, [])
  {
    hide WalkRows, Dependents, Blockable;
    var w := WalkRows(DependentGraph(db), x, BlockList(db, x), Blockable(db));
    assert Children([]) == {};
    assert BlockList(db, x)[0..] == BlockList(db, x);
    assert Blockable(db) - Children([]) == Blockable(db);
    if w.Done? { assert [] + w.edges == w.edges; }
  }

  lemma ListedWalk(db: Db, x: Id)
    requires NoDuplicates(db.ids) && (forall i :: i in db.tasks ==> i in db.ids) && x in db.tasks
    ensures Walk(DependentGraph(db), x, Blockable(db)) == WalkRows(DependentGraph(db), x, BlockList(db, x), Blockable(db))
    ensures NoDuplicates(BlockList(db, x))
  {
    DependentsFacts(db, x);
    PickedNoDuplicates(Dependents(db, x), Blockable(db));
    hide Dependents, Blockable, NoDuplicates;
  }

  /** A row that an earlier sibling's cascade has blocked stops the cascade. */
  lemma BlockStale(db: Db, x: Id, rows: seq<Id>, i: nat, edges: seq<(Id, Id)>)
    requires BlockProgress(db, x, rows, i, edges) && i < |rows| && rows[i] in Children(edges)
    ensures WalkRows(DependentGraph(db), x, rows, Blockable(db)) == Conflict(rows[i])
  {
    hide DependentGraph, Blockable, Children, EdgesBlockable;
    assert rows[i..][0] == rows[i];
  }

  lemma PrependPrepend(a: seq<(Id, Id)>, b: seq<(Id, Id)>, w: Walked)
    ensures Prepend(a, Prepend(b, w)) == Prepend(a + b, w)
  {
    if w.Done? { assert a + (b + w.edges) == (a + b) + w.edges; }
  }

  lemma WalkRowsNext(g: Graph, x: Id, rows: seq<Id>, i: nat, p: set<Id>)
    requires i < |rows| && rows[i] in p
    ensures var below := Walk(g, rows[i], p - {rows[i]});
      WalkRows(g, x, rows[i..], p) ==
        if below.Conflict? then below
        else Prepend([(x, rows[i])] + below.edges, WalkRows(g, x, rows[i + 1..], below.left))
  {
    assert rows[i..][0] == rows[i] && rows[i..][1..] == rows[i + 1..];
    var below := Walk(g, rows[i], p - {rows[i]});
    if below.Done? { CardinalityOfSubset(below.left, p - {rows[i]}); }
  }

  lemma BlockNext(db: Db, x: Id, rows: seq<Id>, i: nat, edges: seq<(Id, Id)>)
    requires BlockProgress(db, x, rows, i, edges) && i < |rows| && rows[i] in Blockable(db) - Children(edges)
    ensures var g, p, r := DependentGraph(db), Blockable(db) - Children(edges), rows[i];
      var below := Walk(g, r, p - {r});
      WalkRows(g, x, rows, Blockable(db)) ==
        if below.Conflict? then below
        else Prepend(edges + [(x, r)] + below.edges, WalkRows(g, x, rows[i + 1..], below.left))
  {
    var g, p, r := DependentGraph(db), Blockable(db) - Children(edges), rows[i];
    hide DependentGraph, Blockable, Children, EdgesBlockable, Walk, WalkRows;
    WalkRowsNext(g, x, rows, i, p);
    var below := Walk(g, r, p - {r});
    if below.Done? {
      PrependPrepend(edges, [(x, r)] + below.edges, WalkRows(g, x, rows[i + 1..], below.left));
      assert edges + ([(x, r)] + below.edges) == edges + [(x, r)] + below.edges;
    }
  }

  lemma ChildrenJoined(e1: seq<(Id, Id)>, e2: seq<(Id, Id)>)
    ensures Children(e1 + e2) == Children(e1) + Children(e2)
  {
    var e := e1 + e2;
    forall id ensures id in Children(e) <==> id in Children(e1) + Children(e2) {
      if id in Children(e) {
        var k :| 0 <= k < |e| && e[k].1 == id;
        if k < |e1| { assert e1[k].1 == id; } else { assert e2[k - |e1|].1 == id; }
      }
      if id in Children(e1) { var k :| 0 <= k < |e1| && e1[k].1 == id; assert e[k].1 == id; }
      if id in Children(e2) { var k :| 0 <= k < |e2| && e2[k].1 == id; assert e[k + |e1|].1 == id; }
    }
  }

  lemma EdgesAppended(db: Db, e1: seq<(Id, Id)>, e2: seq<(Id, Id)>)
    requires EdgesBlockable(db, e1) && EdgesBlockable(db, e2) && Children(e1) !! Children(e2)
    ensures EdgesBlockable(db, e1 + e2)
  {
    hide Blockable;
    var e := e1 + e2;
    forall k, j | 0 <= k < j < |e| ensures e[k].1 != e[j].1 {
      if k < |e1| <= j { assert e1[k].1 in Children(e1) && e2[j - |e1|].1 in Children(e2); }
    }
  }

  lemma EdgesOf(db: Db, r: Id, s: set<Id>, edges: seq<(Id, Id)>)
    requires forall y, d :: d in Rows(DependentGraph(db), y) ==> y in db.tasks && d in DependentSet(db, y)
    requires s <= Blockable(db) && EachOnce(edges, s) && FromBlocked(DependentGraph(db), r, edges)
    ensures EdgesBlockable(db, edges) && Children(edges) == s
  {
    hide DependentSet, DependentGraph, Blockable;
    forall k | 0 <= k < |edges| ensures edges[k].1 in s {}
    forall id ensures id in Children(edges) <==> id in s {}
  }

  /** The edges of a finished cascade below `r` block distinct blockable tasks of `p`. */
  lemma BelowEdges(db: Db, r: Id, p: set<Id>)
    requires NoDuplicates(db.ids) && (forall i :: i in db.tasks ==> i in db.ids)
    requires p <= Blockable(db) && Walk(DependentGraph(db), r, p).Done?
    ensures var below := Walk(DependentGraph(db), r, p);
      EdgesBlockable(db, below.edges) && Children(below.edges) == p - below.left
  {
    hide *;
    GraphFacts(db);
    WalkEdges(DependentGraph(db), r, p);
    var below := Walk(DependentGraph(db), r, p);
    EdgesOf(db, r, p - below.left, below.edges);
  }

  lemma ChildrenOfOne(x: Id, r: Id)
    ensures Children([(x, r)]) == {r}
  {
    assert [(x, r)][0].1 == r;
  }

  lemma EdgesThrough(db: Db, x: Id, r: Id, edges: seq<(Id, Id)>, below: Walked)
    requires EdgesBlockable(db, edges) && x in db.tasks && r in Blockable(db) - Children(edges)
    requires below.Done? && EdgesBlockable(db, below.edges)
    requires below.left <= Blockable(db) - Children(edges) - {r}
    requires Children(below.edges) == Blockable(db) - Children(edges) - {r} - below.left
    ensures var through := edges + [(x, r)] + below.edges;
      EdgesBlockable(db, through) && Blockable(db) - Children(through) == below.left
  {
    ChildrenOfOne(x, r);
    ChildrenJoined(edges, [(x, r)]);
    ChildrenJoined(edges + [(x, r)], below.edges);
    assert EdgesBlockable(db, [(x, r)]);
    assert Children(edges) <= Blockable(db);
    hide Children, EdgesBlockable;
    EdgesAppended(db, edges, [(x, r)]);
    EdgesAppended(db, edges + [(x, r)], below.edges);
    hide Blockable;
  }

  /** Blocking the next row and everything below it moves the frame on by one row. */
  lemma BlockForward(db: Db, x: Id, rows: seq<Id>, i: nat, edges: seq<(Id, Id)>)
    requires NoDuplicates(db.ids) && (forall i :: i in db.tasks ==> i in db.ids) && x in db.tasks
    requires BlockProgress(db, x, rows, i, edges) && i < |rows| && rows[i] in Blockable(db) - Children(edges)
    ensures var below := Walk(DependentGraph(db), rows[i], Blockable(db) - Children(edges) - {rows[i]});
      if below.Conflict? then WalkRows(DependentGraph(db), x, rows, Blockable(db)) == below
      else BlockProgress(db, x, rows, i + 1, edges + [(x, rows[i])] + below.edges)
  {
    var r := rows[i];
    var p := Blockable(db) - Children(edges) - {r};
    var below := Walk(DependentGraph(db), r, p);
    BlockNext(db, x, rows, i, edges);
    if below.Done? {
      hide WalkRows, Walk, Blockable, Children, EdgesBlockable, DependentGraph, NoDuplicates;
      BelowEdges(db, r, p);
      EdgesThrough(db, x, r, edges, below);
    }
  }

  lemma {:induction false} BlockRowsAppend(db: Db, e1: seq<(Id, Id)>, e2: seq<(Id, Id)>, actor: Name, now: int)
    requires forall k :: 0 <= k < |e1| ==> e1[k].0 in db.tasks && e1[k].1 in db.tasks
    ensures BlockRows(db, e1 + e2, actor, now) == BlockRows(BlockRows(db, e1, actor, now), e2, actor, now)
    decreases |e1|
  {
    if e1 == [] {
      assert e1 + e2 == e2;
    } else {
      assert (e1 + e2)[1..] == e1[1..] + e2;
      var mid := BlockOne(db, e1[0].0, e1[0].1, actor, now);
      assert mid.tasks.Keys == db.tasks.Keys;
      hide Advance, BlockedFor;
      forall k | 0 <= k < |e1[1..]| ensures e1[1..][k].0 in mid.tasks && e1[1..][k].1 in mid.tasks {
        assert e1[1..][k] == e1[k + 1] && e1[k + 1].0 in db.tasks.Keys && e1[k + 1].1 in db.tasks.Keys;
      }
      BlockRowsAppend(mid, e1[1..], e2, actor, now);
    }
  }

  /** The tables a frame sees once it has blocked `edges`. */
  ghost predicate BlockedSoFar(r: Redactor, db: Db, cur: Db, edges: seq<(Id, Id)>) {
    && Good(r, cur) && LaterTasks(db, cur)
    && OthersKept(db, cur, Children(edges))
    && DependentGraph(cur) == DependentGraph(db)
    && Blockable(cur) == Blockable(db) - Children(edges)
    && (forall id :: id in Children(edges) && id in db.tasks ==> id in cur.tasks && cur.tasks[id].revision == db.tasks[id].revision + 1)
  }

  lemma BlockableAfter(db: Db, cur: Db, edges: seq<(Id, Id)>)
    requires OthersKept(db, cur, Children(edges))
    requires forall id :: id in Children(edges) ==> id in cur.tasks && cur.tasks[id].status == Blocked
    ensures Blockable(cur) == Blockable(db) - Children(edges)
  {
    hide Children;
    forall id ensures id in Blockable(cur) <==> id in Blockable(db) - Children(edges) {
      assert id in cur.tasks.Keys <==> id in db.tasks.Keys;
    }
  }

  lemma ChildrenBlocked(db: Db, cur: Db, edges: seq<(Id, Id)>, actor: Name, now: int)
    requires AllBlockedFrom(db, cur, edges, actor, now)
    ensures forall id :: id in Children(edges) ==>
      id in db.tasks && id in cur.tasks && cur.tasks[id].status == Blocked && cur.tasks[id].revision == db.tasks[id].revision + 1
  {
    forall id | id in Children(edges)
      ensures id in db.tasks && id in cur.tasks && cur.tasks[id].status == Blocked
      ensures cur.tasks[id].revision == db.tasks[id].revision + 1
    {
      var k :| 0 <= k < |edges| && edges[k].1 == id;
      assert BlockedFrom(db, cur, edges[k].0, id, actor, now);
    }
  }

  lemma GraphAfter(db: Db, cur: Db)
    requires LaterTasks(db, cur) && cur.ids == db.ids && cur.tasks.Keys == db.tasks.Keys
    ensures DependentGraph(cur) == DependentGraph(db)
  {
    forall id | id in db.tasks
      ensures Deps(cur, id) == Deps(db, id) && cur.tasks[id].snapshot.createdAt == db.tasks[id].snapshot.createdAt
    {
      assert LaterRow(db.tasks[id], cur.tasks[id]);
    }
    hide LaterTasks, DependentGraph, Dependents;
    SameGraph(db, cur);
  }

  lemma BlockedState(r: Redactor, db: Db, edges: seq<(Id, Id)>, actor: Name, now: int)
    requires Good(r, db) && EdgesBlockable(db, edges)
    ensures BlockedSoFar(r, db, BlockRows(db, edges, actor, now), edges)
  {
    var cur := BlockRows(db, edges, actor, now);
    BlockRowsSafe(r, db, edges, actor, now);
    SafeGood(r, db, cur);
    SafeTasks(r, db, cur);
    ChildrenBlocked(db, cur, edges, actor, now);
    assert cur.ids == db.ids && cur.tasks.Keys == db.tasks.Keys;
    hide Good, Safe, LaterTasks, AllBlockedFrom, Children, DependentGraph, Blockable, EdgesBlockable, BlockRows;
    GraphAfter(db, cur);
    BlockableAfter(db, cur, edges);
  }

  /** What a frame does next: its row is untouched since it was fetched, or already blocked. */
  lemma FetchedRow(r: Redactor, db: Db, cur: Db, edges: seq<(Id, Id)>, id: Id)
    requires BlockedSoFar(r, db, cur, edges) && id in Blockable(db)
    ensures id in db.tasks && id in cur.tasks
    ensures if id in Children(edges) then cur.tasks[id].revision == db.tasks[id].revision + 1
            else id in Blockable(cur) && cur.tasks[id] == db.tasks[id]
  {
    hide Good, LaterTasks, DependentGraph, Children;
    assert id in cur.tasks.Keys;
  }

  lemma UnblockedKept(r: Redactor, db: Db, cur: Db, edges: seq<(Id, Id)>, x: Id)
    requires BlockedSoFar(r, db, cur, edges) && EdgesBlockable(db, edges) && x in db.tasks && x !in Blockable(db)
    ensures x in cur.tasks && cur.tasks[x] == db.tasks[x]
  {
    hide Good, LaterTasks, DependentGraph;
    assert x in cur.tasks.Keys;
    hide Blockable;
    assert x !in Children(edges);
  }

  // ----- One turn of the blocking loop -----

  /** A frame of the cascade from `x`, at row `i`: what the loop knows at its head. */
  ghost predicate BlockTurn(r: Redactor, db: Db, x: Id, rows: seq<Id>, i: nat, edges: seq<(Id, Id)>) {
    && Good(r, db) && x in db.tasks && x !in Blockable(db) && rows == BlockList(db, x)
    && BlockProgress(db, x, rows, i, edges)
  }

  lemma BlockTurnStarts(r: Redactor, db: Db, x: Id)
    requires Good(r, db) && x in db.tasks && x !in Blockable(db)
    ensures BlockTurn(r, db, x, BlockList(db, x), 0, [])
  {
    hide Good, BlockProgress, BlockList;
    BlockStarts(db, x);
  }

  lemma RowListed(r: Redactor, db: Db, x: Id, rows: seq<Id>, i: nat, edges: seq<(Id, Id)>)
    requires BlockTurn(r, db, x, rows, i, edges) && i < |rows|
    ensures rows[i] in db.tasks && rows[i] in Blockable(db) && rows[i] != x
    ensures EdgesBlockable(db, edges)
  {
    hide Good, BlockList;
    assert rows[i] in BlockList(db, x);
  }

  lemma TurnWalk(r: Redactor, db: Db, x: Id, rows: seq<Id>, i: nat, edges: seq<(Id, Id)>)
    requires BlockTurn(r, db, x, rows, i, edges)
    ensures NoDuplicates(db.ids) && forall k :: k in db.tasks ==> k in db.ids
    ensures Walk(DependentGraph(db), x, Blockable(db)) == WalkRows(DependentGraph(db), x, rows, Blockable(db))
  {
    hide Inv, Redacted, Walk, WalkRows, Blockable, BlockList, BlockProgress;
    IdsFacts(db);
    ListedWalk(db, x);
  }

  lemma BlockedByWalk(db: Db, x: Id, actor: Name, now: int)
    requires x in db.tasks
    ensures match Walk(DependentGraph(db), x, Blockable(db))
      case Conflict(at) => at in db.tasks && BlockDependents(db, x, actor, now) ==
        Err(RevisionConflict(at, db.tasks[at].revision, db.tasks[at].revision + 1))
      case Done(edges, _) => BlockDependents(db, x, actor, now) == Ok(BlockRows(db, edges, actor, now))
  {
    hide Walk, BlockRows;
  }

  lemma TurnStale(r: Redactor, db: Db, x: Id, rows: seq<Id>, i: nat, edges: seq<(Id, Id)>, actor: Name, now: int)
    requires BlockTurn(r, db, x, rows, i, edges) && i < |rows| && rows[i] in Children(edges)
    ensures rows[i] in db.tasks
    ensures BlockDependents(db, x, actor, now) ==
      Err(RevisionConflict(rows[i], db.tasks[rows[i]].revision, db.tasks[rows[i]].revision + 1))
  {
    hide *;
    RowListed(r, db, x, rows, i, edges);
    TurnWalk(r, db, x, rows, i, edges);
    TurnParts(r, db, x, rows, i, edges);
    BlockStale(db, x, rows, i, edges);
    BlockedByWalk(db, x, actor, now);
  }

  lemma AllWalked(db: Db, x: Id, rows: seq<Id>, edges: seq<(Id, Id)>)
    requires BlockProgress(db, x, rows, |rows|, edges)
    ensures WalkRows(DependentGraph(db), x, rows, Blockable(db)) == Done(edges, Blockable(db) - Children(edges))
  {
    hide DependentGraph, Blockable, Children, EdgesBlockable;
    assert rows[|rows|..] == [];
    assert edges + [] == edges;
  }

  lemma TurnEnds(r: Redactor, db: Db, x: Id, rows: seq<Id>, edges: seq<(Id, Id)>, actor: Name, now: int)
    requires BlockTurn(r, db, x, rows, |rows|, edges)
    ensures BlockDependents(db, x, actor, now) == Ok(BlockRows(db, edges, actor, now))
  {
    hide *;
    TurnWalk(r, db, x, rows, |rows|, edges);
    TurnParts(r, db, x, rows, |rows|, edges);
    AllWalked(db, x, rows, edges);
    BlockedByWalk(db, x, actor, now);
  }

  lemma OneMoreEdge(db: Db, x: Id, r: Id, edges: seq<(Id, Id)>)
    requires EdgesBlockable(db, edges) && x in db.tasks && r in Blockable(db) && r !in Children(edges)
    ensures EdgesBlockable(db, edges + [(x, r)]) && Children(edges + [(x, r)]) == Children(edges) + {r}
  {
    ChildrenOfOne(x, r);
    ChildrenJoined(edges, [(x, r)]);
    assert EdgesBlockable(db, [(x, r)]);
    hide Children, Blockable, EdgesBlockable;
    EdgesAppended(db, edges, [(x, r)]);
  }

  lemma BlockOneMore(db: Db, x: Id, r: Id, edges: seq<(Id, Id)>, actor: Name, now: int)
    requires EdgesBlockable(db, edges) && x in db.tasks && r in db.tasks
    ensures BlockRows(db, edges, actor, now).tasks.Keys == db.tasks.Keys
    ensures x in BlockRows(db, edges, actor, now).tasks && r in BlockRows(db, edges, actor, now).tasks
    ensures BlockRows(db, edges + [(x, r)], actor, now) == BlockOne(BlockRows(db, edges, actor, now), x, r, actor, now)
  {
    var cur := BlockRows(db, edges, actor, now);
    assert x in cur.tasks.Keys && r in cur.tasks.Keys;
    forall k | 0 <= k < |edges| ensures edges[k].0 in db.tasks && edges[k].1 in db.tasks {}
    hide EdgesBlockable, Advance, BlockedFor;
    BlockRowsAppend(db, edges, [(x, r)], actor, now);
    BlockLast(cur, x, r, actor, now);
  }

  lemma BlockLast(db: Db, x: Id, r: Id, actor: Name, now: int)
    requires x in db.tasks && r in db.tasks
    ensures BlockRows(db, [(x, r)], actor, now) == BlockOne(db, x, r, actor, now)
  {
    hide Advance, BlockedFor;
    var mid := BlockOne(db, x, r, actor, now);
    assert [(x, r)][1..] == [];
    assert BlockRows(mid, [], actor, now) == mid;
  }

  lemma FewerBlockable(db: Db, mid: Db, edges: seq<(Id, Id)>, r: Id)
    requires Blockable(mid) == Blockable(db) - Children(edges) && r in Children(edges) && r in Blockable(db)
    ensures |Blockable(mid)| < |Blockable(db)|
  {
    hide Blockable, Children;
    CardinalityOfSubset(Blockable(mid), Blockable(db) - {r});
  }

  /** Blocking the next row: the tables, and what the frame below starts from. */
  lemma TurnBlocks(r: Redactor, db: Db, x: Id, rows: seq<Id>, i: nat, edges: seq<(Id, Id)>, actor: Name, now: int)
    requires BlockTurn(r, db, x, rows, i, edges) && i < |rows| && rows[i] !in Children(edges)
    ensures var cur, next := BlockRows(db, edges, actor, now), edges + [(x, rows[i])];
      && x in cur.tasks && rows[i] in cur.tasks
      && var mid := BlockOne(cur, x, rows[i], actor, now);
      && mid == BlockRows(db, next, actor, now)
      && BlockedSoFar(r, db, mid, next) && rows[i] in Children(next)
      && |Blockable(mid)| < |Blockable(db)|
  {
    RowListed(r, db, x, rows, i, edges);
    hide *;
    TurnParts(r, db, x, rows, i, edges);
    OneMoreEdge(db, x, rows[i], edges);
    BlockOneMore(db, x, rows[i], edges, actor, now);
    var next := edges + [(x, rows[i])];
    BlockedState(r, db, next, actor, now);
    SoFarParts(r, db, BlockRows(db, next, actor, now), next);
    FewerBlockable(db, BlockRows(db, next, actor, now), next, rows[i]);
  }

  lemma TurnParts(r: Redactor, db: Db, x: Id, rows: seq<Id>, i: nat, edges: seq<(Id, Id)>)
    requires BlockTurn(r, db, x, rows, i, edges)
    ensures Good(r, db) && x in db.tasks && x !in Blockable(db) && EdgesBlockable(db, edges)
    ensures BlockProgress(db, x, rows, i, edges)
  {
    hide Good, Blockable, BlockList, Children, WalkRows, DependentGraph;
  }

  lemma SoFarParts(r: Redactor, db: Db, cur: Db, edges: seq<(Id, Id)>)
    requires BlockedSoFar(r, db, cur, edges)
    ensures Good(r, cur) && DependentGraph(cur) == DependentGraph(db) && Blockable(cur) == Blockable(db) - Children(edges)
  {
    hide Good, Blockable, DependentGraph, Children;
  }

  /** The edges once the frame below the row has finished. */
  function Through(db: Db, x: Id, r: Id, edges: seq<(Id, Id)>): seq<(Id, Id)> {
    var below := Walk(DependentGraph(db), r, Blockable(db) - Children(edges) - {r});
    if below.Done? then edges + [(x, r)] + below.edges else []
  }

  /** The frame below the row is the traversal below it, on the tables as they are by then. */
  lemma BelowTurn(r: Redactor, db: Db, x: Id, rows: seq<Id>, i: nat, edges: seq<(Id, Id)>, actor: Name, now: int)
    requires BlockTurn(r, db, x, rows, i, edges) && i < |rows| && rows[i] !in Children(edges)
    ensures var mid := BlockRows(db, edges + [(x, rows[i])], actor, now);
      && rows[i] in mid.tasks
      && Walk(DependentGraph(mid), rows[i], Blockable(mid)) ==
           Walk(DependentGraph(db), rows[i], Blockable(db) - Children(edges) - {rows[i]})
      && Blockable(mid) == Blockable(db) - Children(edges) - {rows[i]}
      && BlockedSoFar(r, db, mid, edges + [(x, rows[i])]) && EdgesBlockable(db, edges + [(x, rows[i])])
  {
    hide *;
    var row, next := rows[i], edges + [(x, rows[i])];
    RowListed(r, db, x, rows, i, edges);
    TurnParts(r, db, x, rows, i, edges);
    TurnBlocks(r, db, x, rows, i, edges, actor, now);
    OneMoreEdge(db, x, row, edges);
    SoFarParts(r, db, BlockRows(db, next, actor, now), next);
    SoFarRow(r, db, BlockRows(db, next, actor, now), next, row);
    assert Blockable(db) - Children(next) == Blockable(db) - Children(edges) - {row};
  }

  lemma TurnFails(r: Redactor, db: Db, x: Id, rows: seq<Id>, i: nat, edges: seq<(Id, Id)>, actor: Name, now: int)
    requires BlockTurn(r, db, x, rows, i, edges) && i < |rows| && rows[i] !in Children(edges)
    requires Walk(DependentGraph(db), rows[i], Blockable(db) - Children(edges) - {rows[i]}).Conflict?
    ensures var mid := BlockRows(db, edges + [(x, rows[i])], actor, now);
      && BlockDependents(mid, rows[i], actor, now).Err?
      && BlockDependents(db, x, actor, now) == BlockDependents(mid, rows[i], actor, now)
  {
    hide *;
    var row, next := rows[i], edges + [(x, rows[i])];
    var mid := BlockRows(db, next, actor, now);
    BelowTurn(r, db, x, rows, i, edges, actor, now);
    BlockedByWalk(mid, row, actor, now);
    TurnForward(r, db, x, rows, i, edges);
    TurnParts(r, db, x, rows, i, edges);
    BlockedByWalk(db, x, actor, now);
    ConflictRow(r, db, mid, next, Walk(DependentGraph(mid), row, Blockable(mid)).at);
  }

  lemma TurnGoesOn(r: Redactor, db: Db, x: Id, rows: seq<Id>, i: nat, edges: seq<(Id, Id)>, actor: Name, now: int)
    requires BlockTurn(r, db, x, rows, i, edges) && i < |rows| && rows[i] !in Children(edges)
    requires Walk(DependentGraph(db), rows[i], Blockable(db) - Children(edges) - {rows[i]}).Done?
    ensures var mid := BlockRows(db, edges + [(x, rows[i])], actor, now);
      && BlockTurn(r, db, x, rows, i + 1, Through(db, x, rows[i], edges))
      && BlockDependents(mid, rows[i], actor, now) == Ok(BlockRows(db, Through(db, x, rows[i], edges), actor, now))
  {
    hide *;
    var row, next := rows[i], edges + [(x, rows[i])];
    var mid := BlockRows(db, next, actor, now);
    BelowTurn(r, db, x, rows, i, edges, actor, now);
    BlockedByWalk(mid, row, actor, now);
    TurnForward(r, db, x, rows, i, edges);
    ThroughIs(db, x, row, edges);
    EdgesInTable(db, next);
    BlockRowsAppend(db, next, Walk(DependentGraph(mid), row, Blockable(mid)).edges, actor, now);
  }

  /** What the frame below the row decides for this frame. */
  lemma TurnReturns(r: Redactor, db: Db, x: Id, rows: seq<Id>, i: nat, edges: seq<(Id, Id)>, actor: Name, now: int)
    requires BlockTurn(r, db, x, rows, i, edges) && i < |rows| && rows[i] !in Children(edges)
    ensures var mid := BlockRows(db, edges + [(x, rows[i])], actor, now);
      match BlockDependents(mid, rows[i], actor, now)
      case Err(e) => BlockDependents(db, x, actor, now) == Err(e)
      case Ok(after) =>
        && BlockTurn(r, db, x, rows, i + 1, Through(db, x, rows[i], edges))
        && after == BlockRows(db, Through(db, x, rows[i], edges), actor, now)
  {
    hide *;
    if Walk(DependentGraph(db), rows[i], Blockable(db) - Children(edges) - {rows[i]}).Conflict? {
      TurnFails(r, db, x, rows, i, edges, actor, now);
    } else {
      TurnGoesOn(r, db, x, rows, i, edges, actor, now);
    }
  }

  lemma SoFarRow(r: Redactor, db: Db, cur: Db, edges: seq<(Id, Id)>, id: Id)
    requires BlockedSoFar(r, db, cur, edges) && id in db.tasks
    ensures id in cur.tasks
  {
    hide Good, Blockable, DependentGraph, Children;
    assert id in cur.tasks.Keys;
  }

  lemma ConflictRow(r: Redactor, db: Db, mid: Db, next: seq<(Id, Id)>, at: Id)
    requires BlockedSoFar(r, db, mid, next) && at in Blockable(mid)
    ensures at in db.tasks && at in mid.tasks && mid.tasks[at] == db.tasks[at]
  {
    hide Good, DependentGraph, Children;
    assert at in mid.tasks.Keys;
  }

  lemma ThroughIs(db: Db, x: Id, r: Id, edges: seq<(Id, Id)>)
    requires Walk(DependentGraph(db), r, Blockable(db) - Children(edges) - {r}).Done?
    ensures Through(db, x, r, edges) ==
      edges + [(x, r)] + Walk(DependentGraph(db), r, Blockable(db) - Children(edges) - {r}).edges
  {}

  lemma EdgesInTable(db: Db, edges: seq<(Id, Id)>)
    requires EdgesBlockable(db, edges)
    ensures forall k :: 0 <= k < |edges| ==> edges[k].0 in db.tasks && edges[k].1 in db.tasks
  {}

  lemma TurnForward(r: Redactor, db: Db, x: Id, rows: seq<Id>, i: nat, edges: seq<(Id, Id)>)
    requires BlockTurn(r, db, x, rows, i, edges) && i < |rows| && rows[i] !in Children(edges)
    ensures var below := Walk(DependentGraph(db), rows[i], Blockable(db) - Children(edges) - {rows[i]});
      if below.Conflict? then Walk(DependentGraph(db), x, Blockable(db)) == below
      else BlockTurn(r, db, x, rows, i + 1, Through(db, x, rows[i], edges))
  {
    RowListed(r, db, x, rows, i, edges);
    TurnWalk(r, db, x, rows, i, edges);
    hide Good, BlockProgress, Walk, WalkRows, Blockable, Children, DependentGraph, NoDuplicates, BlockList;
    BlockForward(db, x, rows, i, edges);
  }

  /** What the loop writes for a row that is still as it was fetched. */
  lemma TurnWrites(r: Redactor, db: Db, x: Id, rows: seq<Id>, i: nat, edges: seq<(Id, Id)>, actor: Name, now: int)
    requires BlockTurn(r, db, x, rows, i, edges) && i < |rows|
    ensures rows[i] in db.tasks && x in db.tasks
    ensures var cur, current := BlockRows(db, edges, actor, now), TaskAt(db, rows[i]);
      && x in cur.tasks && rows[i] in cur.tasks
      && BlockTask(current, BlockReason(x, db.tasks[x].status)).Ok?
      && var updated := Next(BlockTask(current, BlockReason(x, db.tasks[x].status)).value, now);
      && updated.id == rows[i] && updated.status == Blocked
      && (cur.tasks[rows[i]].revision == current.revision <==> rows[i] !in Children(edges))
      && (rows[i] !in Children(edges) ==>
            Logged(Written(cur, updated, false), updated, EventRow(MadeBlocked, actor, Some(x), now)) ==
            BlockOne(cur, x, rows[i], actor, now))
      && (rows[i] in Children(edges) ==> cur.tasks[rows[i]].revision == db.tasks[rows[i]].revision + 1)
  {
    hide *;
    RowListed(r, db, x, rows, i, edges);
    TurnParts(r, db, x, rows, i, edges);
    BlockedState(r, db, edges, actor, now);
    var cur := BlockRows(db, edges, actor, now);
    FetchedRow(r, db, cur, edges, rows[i]);
    UnblockedKept(r, db, cur, edges, x);
    BlockableStatus(db, rows[i]);
    RowFacts(r, db, rows[i]);
    TaskAtRevision(db, rows[i]);
    BlockTaskOk(TaskAt(db, rows[i]), BlockReason(x, db.tasks[x].status), now);
    if rows[i] !in Children(edges) { BlockWrite(cur, db, x, rows[i], actor, now); }
  }

  lemma BlockableStatus(db: Db, id: Id)
    requires id in Blockable(db)
    ensures id in db.tasks && db.tasks[id].status in {Pending, Ready, Waiting}
  {}

  lemma TaskAtRevision(db: Db, id: Id)
    requires id in db.tasks
    ensures TaskAt(db, id).revision == db.tasks[id].revision && TaskAt(db, id).status == db.tasks[id].status
  {}

  lemma BlockTaskOk(t: ChildTask, reason: Name, now: int)
    requires t.status in {Pending, Ready, Waiting}
    ensures BlockTask(t, reason).Ok?
    ensures var u := Next(BlockTask(t, reason).value, now); u.id == t.id && u.status == Blocked
  {}

  lemma BlockWrite(cur: Db, db: Db, x: Id, id: Id, actor: Name, now: int)
    requires x in db.tasks && id in db.tasks && x in cur.tasks && id in cur.tasks
    requires cur.tasks[id] == db.tasks[id] && cur.tasks[x] == db.tasks[x]
    requires db.tasks[id].status in {Pending, Ready, Waiting} && RowAgrees(id, db.tasks[id])
    ensures BlockTask(TaskAt(db, id), BlockReason(x, db.tasks[x].status)).Ok?
    ensures var updated := Next(BlockTask(TaskAt(db, id), BlockReason(x, db.tasks[x].status)).value, now);
      updated.id in cur.tasks &&
      Logged(Written(cur, updated, false), updated, EventRow(MadeBlocked, actor, Some(x), now)) == BlockOne(cur, x, id, actor, now)
  {
    hide BlockReason;
    var updated := Next(BlockTask(TaskAt(db, id), BlockReason(x, db.tasks[x].status)).value, now);
    assert updated == BlockedFor(cur, x, id, now);
    QuietWrites(cur, updated, false, EventRow(MadeBlocked, actor, Some(x), now));
    hide Advance, Written;
  }

  /** The rows of a listing, as they are when it is fetched. */
  function Fetched(db: Db, rows: seq<Id>): (tasks: seq<ChildTask>)
    requires AllPresent(db, rows)
    ensures |tasks| == |rows|
    ensures forall i :: 0 <= i < |rows| ==> rows[i] in db.tasks && tasks[i] == TaskAt(db, rows[i])
  {
    assert forall i :: 0 <= i < |rows| ==> rows[i] in rows;
    seq(|rows|, i requires 0 <= i < |rows| => TaskAt(db, rows[i]))
  }

  lemma BlockListPresent(db: Db, x: Id)
    ensures AllPresent(db, BlockList(db, x))
  {}

  lemma EndedUnblockable(db: Db, x: Id, s: Status)
    requires HasStatus(db, x, s) && s !in {Pending, Ready, Waiting}
    ensures x in db.tasks && x !in Blockable(db) && db.tasks[x].status == s
  {}

  lemma NothingBlocked(db: Db, actor: Name, now: int)
    ensures BlockRows(db, [], actor, now) == db
  {}

  lemma BlockedRowIs(r: Redactor, db: Db, mid: Db, next: seq<(Id, Id)>, x: Id, id: Id, cur: Db, actor: Name, now: int)
    requires x in cur.tasks && id in cur.tasks && mid == BlockOne(cur, x, id, actor, now) && BlockedSoFar(r, db, mid, next)
    ensures Good(r, mid) && HasStatus(mid, id, Blocked)
  {
    hide Good, Blockable, DependentGraph, Children, LaterTasks;
  }

  // ----- One turn of the ready loop -----

  function ReadyList(db: Db, completed: Id): (rows: seq<Id>) {
    Picked(Dependents(db, completed), WithStatus(db, {Pending}))
  }

  /** The rows still to come are as they were when the listing was fetched. */
  ghost predicate Unread(db: Db, cur: Db, rows: seq<Id>) {
    forall id :: id in rows ==> id in db.tasks && id in cur.tasks && cur.tasks[id] == db.tasks[id]
  }

  ghost predicate ReadyTurn(r: Redactor, db: Db, cur: Db, rows: seq<Id>, i: nat, completed: Id, actor: Name, now: int) {
    && i <= |rows| && AllPresent(db, rows) && Good(r, cur)
    && NoDuplicates(rows[i..]) && AllPending(cur, rows[i..]) && AllPresent(cur, rows[i..]) && Unread(db, cur, rows[i..])
    && ReadyRows(db, rows, completed, actor, now) == ReadyRows(cur, rows[i..], completed, actor, now)
  }

  lemma ReadyTurnStarts(r: Redactor, db: Db, completed: Id, actor: Name, now: int)
    requires Good(r, db)
    ensures ReadyTurn(r, db, db, ReadyList(db, completed), 0, completed, actor, now)
    ensures ReadyDependents(db, completed, actor, now) == ReadyRows(db, ReadyList(db, completed), completed, actor, now)
  {
    hide Inv, Redacted;
    IdsFacts(db);
    hide ReadyRows, Dependents;
    var rows := ReadyList(db, completed);
    PendingRows(db, completed);
    assert rows[0..] == rows;
    hide NoDuplicates;
  }

  lemma Ahead<T>(rows: seq<T>, i: nat)
    requires i < |rows|
    ensures rows[i..] != [] && rows[i..][0] == rows[i] && rows[i..][1..] == rows[i + 1..]
  {}

  lemma UnreadTail(db: Db, cur: Db, rows: seq<Id>, i: nat)
    requires i < |rows| && Unread(db, cur, rows[i..])
    ensures Unread(db, cur, rows[i + 1..]) && rows[i] in db.tasks && rows[i] in cur.tasks
    ensures cur.tasks[rows[i]] == db.tasks[rows[i]] && TaskAt(cur, rows[i]) == TaskAt(db, rows[i])
  {
    Ahead(rows, i);
    assert rows[i] in rows[i..];
    forall id | id in rows[i + 1..] ensures id in rows[i..] { assert rows[i..][1..] == rows[i + 1..]; }
  }

  lemma PendingHere(db: Db, rows: seq<Id>, i: nat)
    requires i < |rows| && AllPending(db, rows[i..])
    ensures rows[i] in db.tasks && db.tasks[rows[i]].status == Pending
    ensures AllPending(db, rows[i + 1..]) && AllPresent(db, rows[i + 1..])
  {
    Ahead(rows, i);
    assert rows[i] in rows[i..];
    forall id | id in rows[i + 1..] ensures id in rows[i..] { assert rows[i..][1..] == rows[i + 1..]; }
  }

  lemma ReadyTurnSkips(r: Redactor, db: Db, cur: Db, rows: seq<Id>, i: nat, completed: Id, actor: Name, now: int)
    requires ReadyTurn(r, db, cur, rows, i, completed, actor, now) && i < |rows|
    ensures rows[i] in db.tasks && rows[i] in cur.tasks && TaskAt(cur, rows[i]) == TaskAt(db, rows[i])
    ensures TaskAt(db, rows[i]).deps == Deps(cur, rows[i])
    ensures !DepsCompleted(cur, Deps(cur, rows[i])) ==> ReadyTurn(r, db, cur, rows, i + 1, completed, actor, now)
  {
    UnreadTail(db, cur, rows, i);
    PendingHere(cur, rows, i);
    Ahead(rows, i);
    TailDistinct(rows[i..]);
    ReadyRowsUnfold(cur, rows[i..], completed, actor, now);
    hide Good, NoDuplicates, AllPending, AllPresent, Unread, ReadyRows, Freed, ReadyOne, DepsCompleted;
  }

  lemma UnreadAfter(db: Db, cur: Db, mid: Db, rows: seq<Id>, id: Id)
    requires Unread(db, cur, rows) && OthersKept(cur, mid, {id}) && id !in rows
    ensures Unread(db, mid, rows)
  {
    forall k | k in rows ensures k in mid.tasks && mid.tasks[k] == db.tasks[k] { assert k in cur.tasks.Keys; }
  }

  lemma PresentPending(db: Db, rows: seq<Id>)
    requires AllPending(db, rows)
    ensures AllPresent(db, rows)
  {}

  lemma ReadyTurnMoves(r: Redactor, db: Db, cur: Db, rows: seq<Id>, i: nat, completed: Id, actor: Name, now: int)
    requires ReadyTurn(r, db, cur, rows, i, completed, actor, now) && i < |rows|
    requires rows[i] in cur.tasks && DepsCompleted(cur, Deps(cur, rows[i]))
    ensures MarkReady(TaskAt(cur, rows[i])).Ok?
    ensures ReadyTurn(r, db, ReadyOne(cur, rows[i], completed, actor, now), rows, i + 1, completed, actor, now)
  {
    ReadyTurnParts(r, db, cur, rows, i, completed, actor, now);
    hide *;
    UnreadTail(db, cur, rows, i);
    PendingHere(cur, rows, i);
    Ahead(rows, i);
    TailDistinct(rows[i..]);
    ReadyOneSafe(r, cur, rows[i], completed, actor, now);
    var mid := ReadyOne(cur, rows[i], completed, actor, now);
    SafeGood(r, cur, mid);
    SafeTasks(r, cur, mid);
    FreedAfter(cur, mid, rows[i..]);
    PresentPending(mid, rows[i + 1..]);
    ReadyRowsUnfold(cur, rows[i..], completed, actor, now);
    UnreadAfter(db, cur, mid, rows[i + 1..], rows[i]);
    ReadyTurnFrom(r, db, mid, rows, i + 1, completed, actor, now);
  }

  lemma ReadyTurnParts(r: Redactor, db: Db, cur: Db, rows: seq<Id>, i: nat, completed: Id, actor: Name, now: int)
    requires ReadyTurn(r, db, cur, rows, i, completed, actor, now)
    ensures i <= |rows| && AllPresent(db, rows) && Good(r, cur)
    ensures NoDuplicates(rows[i..]) && AllPending(cur, rows[i..]) && AllPresent(cur, rows[i..]) && Unread(db, cur, rows[i..])
    ensures ReadyRows(db, rows, completed, actor, now) == ReadyRows(cur, rows[i..], completed, actor, now)
  {
    hide Good, NoDuplicates, AllPending, AllPresent, Unread, ReadyRows;
  }

  lemma ReadyTurnFrom(r: Redactor, db: Db, cur: Db, rows: seq<Id>, i: nat, completed: Id, actor: Name, now: int)
    requires i <= |rows| && AllPresent(db, rows) && Good(r, cur)
    requires NoDuplicates(rows[i..]) && AllPending(cur, rows[i..]) && AllPresent(cur, rows[i..]) && Unread(db, cur, rows[i..])
    requires ReadyRows(db, rows, completed, actor, now) == ReadyRows(cur, rows[i..], completed, actor, now)
    ensures ReadyTurn(r, db, cur, rows, i, completed, actor, now)
  {
    hide Good, NoDuplicates, AllPending, AllPresent, Unread, ReadyRows;
  }

  lemma ReadyFacts(cur: Db, id: Id, now: int)
    requires id in cur.tasks && MarkReady(TaskAt(cur, id)).Ok? && RowAgrees(id, cur.tasks[id])
    ensures var u := Next(MarkReady(TaskAt(cur, id)).value, now);
      && u.id == id && u.status == Ready
      && cur.tasks[id].status != Running && cur.tasks[id].claim == None
  {}

  /** What the loop writes for a row whose dependencies have all completed. */
  lemma ReadyTurnWrites(r: Redactor, cur: Db, id: Id, completed: Id, actor: Name, now: int)
    requires Good(r, cur) && id in cur.tasks && MarkReady(TaskAt(cur, id)).Ok?
    ensures var updated, event := Next(MarkReady(TaskAt(cur, id)).value, now), EventRow(MadeReady, actor, Some(completed), now);
      && updated.id == id
      && Logged(Written(cur, updated, false), updated, event) == ReadyOne(cur, id, completed, actor, now)
  {
    hide Good, RowAgrees, MarkReady, Next, TaskAt, Advance, Written, Logged;
    RowFacts(r, cur, id);
    ReadyFacts(cur, id, now);
    QuietWrites(cur, Next(MarkReady(TaskAt(cur, id)).value, now), false, EventRow(MadeReady, actor, Some(completed), now));
  }

  lemma ReadyTurnEnds(r: Redactor, db: Db, cur: Db, rows: seq<Id>, completed: Id, actor: Name, now: int)
    requires ReadyTurn(r, db, cur, rows, |rows|, completed, actor, now)
    ensures ReadyRows(db, rows, completed, actor, now) == Ok(cur)
  {
    hide Good;
    assert rows[|rows|..] == [];
  }

  // ----- Ends -----

  ghost predicate ClaimedAttempt(db: Db, id: Id, which: Option<nat>) {
    && id in db.tasks
    && (which.Some? ==> db.tasks[id].claim.Some? && db.tasks[id].claim.value.attemptId == which.value)
  }

  function EndTables(db: Db, t: ChildTask, which: Option<nat>, actor: Name, now: int): Db
    requires t.id in db.tasks
  {
    Logged(Owing(Closed(Written(db, t, true), t, which, now), t, now), t, EventRow(Ended(t.status), actor, None, now))
  }

  lemma LegalEndRow(r: Redactor, db: Db, t: ChildTask, actor: Name, now: int)
    requires Good(r, db) && LegalEnd(db, t, actor, now)
    ensures t.id in db.tasks && Terminal(t.status)
    ensures t.attemptCount == db.tasks[t.id].snapshot.attemptCount && t.revision == db.tasks[t.id].revision + 1
    ensures db.tasks[t.id].status == Running <==> db.tasks[t.id].claim.Some?
  {
    hide Good, LegalStatus;
    RowFacts(r, db, t.id);
  }

  /** The writes of an end are the row transition the specification makes, and its
      cascade starts from there. */
  lemma EndTurn(r: Redactor, db: Db, t: ChildTask, which: Option<nat>, actor: Name, now: int)
    requires Good(r, db) && LegalEnd(db, t, actor, now) && ClaimedAttempt(db, t.id, which)
    ensures t.id in db.tasks
    ensures var mid := EndTables(db, t, which, actor, now);
      && Good(r, mid) && HasStatus(mid, t.id, t.status) && Terminal(t.status)
      && EndAndSettle(db, t, actor, now) ==
           if t.status == Completed then ReadyDependents(mid, t.id, actor, now) else BlockDependents(mid, t.id, actor, now)
  {
    var event := EventRow(Ended(t.status), actor, None, now);
    LegalEndRow(r, db, t, actor, now);
    hide Good, LegalEnd, Advance, Logged, Owing, Closed, Written, ReadyDependents, BlockDependents;
    hide RowsAgree, Founded, DependencyOrder, AttemptsAgree, HistoryDense, OutboxAgrees, ParallelismBounded, Redacted;
    GoodParts(r, db);
    NextRevisionFree(r, db, t.id, t.revision);
    EndWrites(db, t, which, event);
    AfterEndGood(r, db, t, actor, now);
    assert EndTables(db, t, which, actor, now) == AfterEnd(db, t, actor, now);
  }

  /** Without a running attempt there is none to close. */
  lemma NothingToClose(r: Redactor, db: Db, t: ChildTask, now: int)
    requires Good(r, db) && t.id in db.tasks && db.tasks[t.id].status != Running
    ensures Closed(Written(db, t, true), t, None, now) == Written(db, t, true)
  {
    GoodParts(r, db);
    hide Good, RowsAgree, Founded, DependencyOrder, AttemptsAgree, HistoryDense, OutboxAgrees, ParallelismBounded, Redacted;
    NoneRunning(db, t.id, t.attemptCount, None);
    SameAttemptsSameRunning(db, Written(db, t, true), t.id, t.attemptCount, None);
    hide Written, RunningAttempt;
  }

  lemma FinishPaths(db: Db, r: Redactor, t: Ticket, status: Status, result: Option<TaskResult>, reason: string, actor: Name, now: int)
    ensures var current := AssertClaim(db, t, now, true);
      && (current.Err? ==> Finish(db, r, t, status, result, reason, actor, now) == Txn(db, Err(current.error)))
      && (current.Ok? ==>
            && Holds(db, t) && HasStatus(db, t.taskId, Running) && t.taskId in db.tasks
            && current.value == TaskAt(db, t.taskId) && current.value.status == Running
            && current.value.revision == db.tasks[t.taskId].revision && current.value.id == t.taskId
            && var ended := EndState(r, current.value, status, result, reason, now);
            && (ended.Err? ==> Finish(db, r, t, status, result, reason, actor, now) == Txn(db, Err(ended.error)))
            && (ended.Ok? ==>
                  && var updated := Rewritten(r, ended.value, now);
                  && updated.id == t.taskId
                  && Finish(db, r, t, status, result, reason, actor, now) ==
                       match EndAndSettle(db, updated, actor, now)
                       case Err(e) => Txn(db, Err(e))
                       case Ok(after) => Txn(after, Ok(updated))))
  {
    hide EndState, EndAndSettle, Rewritten;
  }

  lemma EndBranches(r: Redactor, current: ChildTask, status: Status, result: Option<TaskResult>, reason: string, now: int)
    requires current.status == Running
    ensures current.cancelRequested ==>
      && CancelTask(current, CANCEL_OBSERVED, now).Ok?
      && EndState(r, current, status, result, reason, now) ==
           Ok(CancelTask(current, CANCEL_OBSERVED, now).value.(result := RedactResultOption(r, result)))
    ensures !current.cancelRequested && status == Completed ==>
      EndState(r, current, status, result, reason, now) ==
        if result.None? then Err(InvalidValue) else CompleteTask(current, RedactResult(r, result.value), now)
    ensures !current.cancelRequested && status == Completed && result.Some? ==>
      CompleteTask(current, RedactResult(r, result.value), now).Ok?
    ensures !current.cancelRequested && status == BudgetExhausted ==>
      && ExhaustBudget(current, ReasonOr(reason, "Budget exhausted."), now).Ok?
      && EndState(r, current, status, result, reason, now) == ExhaustBudget(current, ReasonOr(reason, "Budget exhausted."), now)
    ensures !current.cancelRequested && status != Completed && status != BudgetExhausted ==>
      && FailTask(current, ReasonOr(reason, "Child execution failed."), now).Ok?
      && EndState(r, current, status, result, reason, now) == FailTask(current, ReasonOr(reason, "Child execution failed."), now)
  {
    hide RedactResult, ReasonOr, CANCEL_OBSERVED;
  }

  lemma HolderAttempt(db: Db, t: Ticket)
    requires Holds(db, t)
    ensures ClaimedAttempt(db, t.taskId, Some(t.attemptId))
  {}

  lemma ExpirePaths(db: Db, r: Redactor, id: Id, expected: nat, actor: Name, now: int)
    ensures var checked := CheckRevision(db, id, expected);
      && (checked.Err? ==> ExpireDeadline(db, r, id, expected, actor, now) == Txn(db, Err(checked.error)))
      && (checked.Ok? ==>
            && id in db.tasks && checked.value == TaskAt(db, id) && checked.value.revision == db.tasks[id].revision
            && checked.value.status == db.tasks[id].status && checked.value.id == id
            && (if checked.value.spec.deadline.None? || now < checked.value.spec.deadline.value || checked.value.status != Ready
                then ExpireDeadline(db, r, id, expected, actor, now) == Txn(db, Ok(false))
                else
                  && HasStatus(db, id, Ready) && ExhaustBudget(checked.value, DEADLINE_REASON, now).Ok?
                  && Rewritten(r, ExhaustBudget(checked.value, DEADLINE_REASON, now).value, now) == ExpiredTask(db, r, id, now)
                  && ExpiredTask(db, r, id, now).id == id && ExpiredTask(db, r, id, now).status == BudgetExhausted
                  && ExpireDeadline(db, r, id, expected, actor, now) ==
                       match EndAndSettle(db, ExpiredTask(db, r, id, now), actor, now)
                       case Err(e) => Txn(db, Err(e))
                       case Ok(after) => Txn(after, Ok(true))))
  {
    hide EndAndSettle, Rewritten, DEADLINE_REASON;
  }

  /** The checks of a start, in order, up to the attempt it would start. */
  function StartCheck(db: Db, id: Id, expected: nat): Outcome<ChildTask> {
    match CheckRevision(db, id, expected)
    case Err(e) => Err(e)
    case Ok(current) =>
      if FirstMissing(db, current.deps).Some? then Err(NotFound(FirstMissing(db, current.deps).value))
      else if !DepsCompleted(db, current.deps) then Err(LeaseConflict)
      else if ParentHasRoom(db, id).Err? then Err(ParentHasRoom(db, id).error)
      else StartAttempt(current)
  }

  lemma ReadyUnclaimedRow(r: Redactor, db: Db, id: Id)
    requires Good(r, db) && id in db.tasks && db.tasks[id].status == Ready
    ensures db.tasks[id].claim.None? && !db.tasks[id].cancelRequested
  {
    hide Good;
    RowFacts(r, db, id);
  }

  /** What the worker is handed. */
  function TicketFor(t: ChildTask, claim: Claim): Ticket {
    Ticket(t.id, claim.attemptId, t.attemptCount, claim.worker, claim.token, claim.lease)
  }

  lemma StartPaths(db: Db, r: Redactor, id: Id, expected: nat, worker: Name, seconds: int, now: int)
    ensures var started := StartCheck(db, id, expected);
      && (started.Err? ==> Start(db, r, id, expected, worker, seconds, now) == Txn(db, Err(started.error)))
      && (started.Ok? ==>
            && id in db.tasks && db.tasks[id].status == Ready && db.tasks[id].revision == expected
            && var changed := Rewritten(r, started.value, now);
            && changed.id == id && changed.status == Running
            && changed.cancelRequested == db.tasks[id].cancelRequested && changed.completedAt == db.tasks[id].completedAt
            && Start(db, r, id, expected, worker, seconds, now) ==
                 Txn(Advance(db, changed, Some(NewClaim(db, worker, seconds, now)), EventRow(AttemptStarted, worker, None, now)),
                     Ok(TicketFor(changed, NewClaim(db, worker, seconds, now)))))
  {
    hide Advance, Rewritten, DepsCompleted, ParentHasRoom, FirstMissing, LeaseUntil;
  }

  lemma RetryPaths(db: Db, r: Redactor, id: Id, expected: nat, actor: Name, now: int)
    ensures var checked := CheckRevision(db, id, expected);
      && (checked.Err? ==> Retry(db, r, id, expected, actor, now) == Txn(db, Err(checked.error)))
      && (checked.Ok? ==>
            && id in db.tasks && checked.value == TaskAt(db, id) && checked.value.id == id
            && checked.value.revision == db.tasks[id].revision && checked.value.status == db.tasks[id].status
            && var retried := RetryTask(checked.value);
            && (if retried.Err? then Retry(db, r, id, expected, actor, now) == Txn(db, Err(retried.error))
                else
                  && var missing := FirstMissing(db, retried.value.deps);
                  && (if missing.Some? then Retry(db, r, id, expected, actor, now) == Txn(db, Err(NotFound(missing.value)))
                      else
                        && var initial := InitialState(db, retried.value);
                        && (if initial.Err? then Retry(db, r, id, expected, actor, now) == Txn(db, Err(initial.error))
                            else
                              && var updated := Rewritten(r, initial.value, now);
                              && updated.id == id
                              && Retry(db, r, id, expected, actor, now) ==
                                   Txn(Advance(db, updated, None, EventRow(Retried, actor, None, now)), Ok(updated))))))
  {
    hide Advance, Rewritten, FirstMissing, InitialState;
  }

  lemma RetriedStatus(db: Db, updated: ChildTask, event: EventRow)
    requires Legal(db, updated, None, event) && !event.kind.Ended? && RowAgrees(updated.id, db.tasks[updated.id])
    ensures !Terminal(updated.status) && updated.status != Running && db.tasks[updated.id].status != Running
  {
    hide DepsCompleted, Startable;
  }

  lemma LegalInTable(db: Db, t: ChildTask, claim: Option<Claim>, event: EventRow)
    requires Legal(db, t, claim, event)
    ensures t.id in db.tasks
  {}

  /** The writes of a retry: the claim columns are cleared, and there was no claim. */
  lemma RetryWrites(r: Redactor, db: Db, updated: ChildTask, actor: Name, now: int)
    requires Good(r, db) && Legal(db, updated, None, EventRow(Retried, actor, None, now))
    ensures updated.id in db.tasks
    ensures Logged(Written(db, updated, true), updated, EventRow(Retried, actor, None, now)) ==
      Advance(db, updated, None, EventRow(Retried, actor, None, now))
  {
    hide *;
    LegalInTable(db, updated, None, EventRow(Retried, actor, None, now));
    RowFacts(r, db, updated.id);
    RetriedStatus(db, updated, EventRow(Retried, actor, None, now));
    QuietWrites(db, updated, true, EventRow(Retried, actor, None, now));
  }

  // ----- One turn of the cancelling loop -----

  /** What a loop has gathered, in front of what is still to come. */
  ghost predicate CancelTurn(r: Redactor, db: Db, cur: Db, rows: seq<Id>, i: nat, changed: seq<ChildTask>,
                             root: Id, actor: Name, reason: Name, now: int)
  {
    && i <= |rows| && AllPresent(db, rows) && Good(r, cur) && AllPresent(cur, rows[i..])
    && var rest := CancelRows(cur, r, rows[i..], root, actor, reason, now);
    && CancelRows(db, r, rows, root, actor, reason, now) == (rest.0, changed + rest.1)
  }

  lemma CancelTurnStarts(r: Redactor, db: Db, rows: seq<Id>, root: Id, actor: Name, reason: Name, now: int)
    requires Good(r, db) && AllPresent(db, rows)
    ensures CancelTurn(r, db, db, rows, 0, [], root, actor, reason, now)
  {
    hide Good, CancelRows;
    assert rows[0..] == rows;
    var all := CancelRows(db, r, rows, root, actor, reason, now);
    assert [] + all.1 == all.1;
  }

  lemma CancelTurnEnds(r: Redactor, db: Db, cur: Db, rows: seq<Id>, changed: seq<ChildTask>, root: Id, actor: Name, reason: Name, now: int)
    requires CancelTurn(r, db, cur, rows, |rows|, changed, root, actor, reason, now)
    ensures AllPresent(db, rows) && CancelRows(db, r, rows, root, actor, reason, now) == (cur, changed)
  {
    hide Good;
    assert rows[|rows|..] == [];
    assert changed + [] == changed;
  }

  lemma CancelTurnParts(r: Redactor, db: Db, cur: Db, rows: seq<Id>, i: nat, changed: seq<ChildTask>, root: Id, actor: Name, reason: Name, now: int)
    requires CancelTurn(r, db, cur, rows, i, changed, root, actor, reason, now)
    ensures i <= |rows| && AllPresent(db, rows) && Good(r, cur) && AllPresent(cur, rows[i..])
  {
    hide Good, CancelRows, AllPresent;
  }

  lemma CancelRowsStep(r: Redactor, cur: Db, rows: seq<Id>, root: Id, actor: Name, reason: Name, now: int)
    requires rows != [] && AllPresent(cur, rows)
    ensures rows[0] in cur.tasks
    ensures var mid := CancelHead(cur, r, rows, root, actor, reason, now);
      && AllPresent(mid, rows[1..])
      && var rest := CancelRows(mid, r, rows[1..], root, actor, reason, now);
      && CancelRows(cur, r, rows, root, actor, reason, now) ==
           (rest.0, (if Terminal(cur.tasks[rows[0]].status) then [] else [CancelledTask(r, TaskAt(cur, rows[0]), reason, now)]) + rest.1)
  {
    hide CancelledTask, CancelEvent, Advance;
    assert rows[0] in cur.tasks;
    var mid := CancelHead(cur, r, rows, root, actor, reason, now);
    forall id | id in rows[1..] ensures id in mid.tasks { assert id in rows && id in cur.tasks.Keys; }
    var rest := CancelRows(mid, r, rows[1..], root, actor, reason, now);
    assert [] + rest.1 == rest.1;
  }

  lemma CancelTurnMoves(r: Redactor, db: Db, cur: Db, rows: seq<Id>, i: nat, changed: seq<ChildTask>, root: Id, actor: Name, reason: Name, now: int)
    requires CancelTurn(r, db, cur, rows, i, changed, root, actor, reason, now) && i < |rows|
    ensures rows[i] in cur.tasks
    ensures Terminal(cur.tasks[rows[i]].status) ==> CancelTurn(r, db, cur, rows, i + 1, changed, root, actor, reason, now)
    ensures !Terminal(cur.tasks[rows[i]].status) ==>
      CancelTurn(r, db, CancelOne(cur, r, rows[i], root, actor, reason, now), rows, i + 1,
                 changed + [CancelledTask(r, TaskAt(cur, rows[i]), reason, now)], root, actor, reason, now)
  {
    hide Good, Safe, CancelRows, AllPresent, CancelOne, CancelledTask;
    Ahead(rows, i);
    CancelRowsStep(r, cur, rows[i..], root, actor, reason, now);
    CancelHeadSafe(r, cur, rows[i..], root, actor, reason, now);
    var mid := CancelHead(cur, r, rows[i..], root, actor, reason, now);
    SafeGood(r, cur, mid);
    var rest := CancelRows(mid, r, rows[i + 1..], root, actor, reason, now);
    var one := if Terminal(cur.tasks[rows[i]].status) then [] else [CancelledTask(r, TaskAt(cur, rows[i]), reason, now)];
    assert changed + (one + rest.1) == (changed + one) + rest.1;
    assert changed + [] == changed;
  }

  lemma CancelledIs(r: Redactor, cur: Db, id: Id, reason: Name, now: int)
    requires id in cur.tasks && !Terminal(cur.tasks[id].status)
    ensures var current := TaskAt(cur, id);
      && current.revision == cur.tasks[id].revision && current.status == cur.tasks[id].status && current.id == id
      && var flagged := RequestCancellation(current);
      && (current.status == Running ==>
            && CancelledTask(r, current, reason, now) == Rewritten(r, flagged, now)
            && CancelledTask(r, current, reason, now).status == Running)
      && (current.status != Running ==>
            && CancelTask(flagged, reason, now).Ok?
            && CancelledTask(r, current, reason, now) == Rewritten(r, CancelTask(flagged, reason, now).value, now))
      && (Terminal(CancelledTask(r, current, reason, now).status) <==> current.status != Running)
      && CancelledTask(r, current, reason, now).id == id
  {
    hide Rewritten;
  }

  lemma CancelWrites(r: Redactor, cur: Db, id: Id, root: Id, actor: Name, reason: Name, now: int)
    requires Good(r, cur) && id in cur.tasks && !Terminal(cur.tasks[id].status)
    ensures var updated := CancelledTask(r, TaskAt(cur, id), reason, now);
      && updated.id == id
      && CancelOne(cur, r, id, root, actor, reason, now) ==
           if Terminal(updated.status)
           then Logged(Owing(Closed(Written(cur, updated, true), updated, None, now), updated, now), updated, CancelEvent(updated, root, actor, now))
           else Logged(Written(cur, updated, false), updated, CancelEvent(updated, root, actor, now))
  {
    var updated := CancelledTask(r, TaskAt(cur, id), reason, now);
    var event := CancelEvent(updated, root, actor, now);
    CancelledIs(r, cur, id, reason, now);
    assert CancelEvent(updated, root, actor, now).at == now;
    CancelLegal(r, cur, id, root, actor, reason, now);
    LegalNumbers(cur, updated, if Terminal(updated.status) then None else cur.tasks[id].claim, event);
    hide Good, CancelledTask, CancelEvent, Legal, Advance, Written, Logged, Owing, Closed, RowAgrees, RedactPayload, NowCancelled;
    hide RowsAgree, Founded, DependencyOrder, AttemptsAgree, HistoryDense, OutboxAgrees, ParallelismBounded, Redacted;
    RowFacts(r, cur, id);
    ClaimRuns(id, cur.tasks[id]);
    GoodParts(r, cur);
    NextRevisionFree(r, cur, id, updated.revision);
    if Terminal(updated.status) {
      EndWrites(cur, updated, None, event);
    } else {
      QuietWrites(cur, updated, false, event);
    }
  }

  lemma ClaimRuns(id: Id, row: TaskRow)
    requires RowAgrees(id, row)
    ensures row.claim.Some? <==> row.status == Running
  {}

  lemma LegalNumbers(db: Db, t: ChildTask, claim: Option<Claim>, event: EventRow)
    requires Legal(db, t, claim, event)
    ensures t.id in db.tasks && t.revision == db.tasks[t.id].revision + 1
    ensures t.status != Running ==> t.attemptCount == db.tasks[t.id].snapshot.attemptCount
  {
    hide LegalStatus;
  }

  // ----- One turn of the recovering loop -----

  function Gathered(done: seq<ChildTask>, o: Outcome<(Db, seq<ChildTask>)>): Outcome<(Db, seq<ChildTask>)> {
    match o
    case Err(e) => Err(e)
    case Ok((last, rest)) => Ok((last, done + rest))
  }

  ghost predicate RecoverTurn(r: Redactor, db: Db, cur: Db, rows: seq<Id>, i: nat, recovered: seq<ChildTask>, actor: Name, now: int) {
    && i <= |rows| && AllPresent(db, rows) && Good(r, cur)
    && NoDuplicates(rows[i..]) && AllRunning(cur, rows[i..]) && AllPresent(cur, rows[i..]) && Unread(db, cur, rows[i..])
    && RecoverRows(db, r, rows, actor, now) == Gathered(recovered, RecoverRows(cur, r, rows[i..], actor, now))
  }

  lemma RecoverTurnParts(r: Redactor, db: Db, cur: Db, rows: seq<Id>, i: nat, recovered: seq<ChildTask>, actor: Name, now: int)
    requires RecoverTurn(r, db, cur, rows, i, recovered, actor, now)
    ensures i <= |rows| && AllPresent(db, rows) && Good(r, cur)
    ensures NoDuplicates(rows[i..]) && AllRunning(cur, rows[i..]) && AllPresent(cur, rows[i..]) && Unread(db, cur, rows[i..])
    ensures RecoverRows(db, r, rows, actor, now) == Gathered(recovered, RecoverRows(cur, r, rows[i..], actor, now))
  {
    hide Good, NoDuplicates, AllRunning, AllPresent, Unread, RecoverRows;
  }

  lemma RecoverTurnFrom(r: Redactor, db: Db, cur: Db, rows: seq<Id>, i: nat, recovered: seq<ChildTask>, actor: Name, now: int)
    requires i <= |rows| && AllPresent(db, rows) && Good(r, cur)
    requires NoDuplicates(rows[i..]) && AllRunning(cur, rows[i..]) && AllPresent(cur, rows[i..]) && Unread(db, cur, rows[i..])
    requires RecoverRows(db, r, rows, actor, now) == Gathered(recovered, RecoverRows(cur, r, rows[i..], actor, now))
    ensures RecoverTurn(r, db, cur, rows, i, recovered, actor, now)
  {
    hide Good, NoDuplicates, AllRunning, AllPresent, Unread, RecoverRows;
  }

  lemma GatheredNone(o: Outcome<(Db, seq<ChildTask>)>)
    ensures Gathered([], o) == o
  {
    if o.Ok? { assert [] + o.value.1 == o.value.1; }
  }

  lemma GatheredTwice(a: seq<ChildTask>, b: seq<ChildTask>, o: Outcome<(Db, seq<ChildTask>)>)
    ensures Gathered(a, Gathered(b, o)) == Gathered(a + b, o)
  {
    if o.Ok? { assert a + (b + o.value.1) == (a + b) + o.value.1; }
  }

  lemma UnreadRefl(db: Db, rows: seq<Id>)
    requires AllPresent(db, rows)
    ensures Unread(db, db, rows)
  {}

  lemma RecoverTurnStarts(r: Redactor, db: Db, actor: Name, now: int)
    requires Good(r, db)
    ensures RecoverTurn(r, db, db, ExpiredRows(db, now), 0, [], actor, now)
  {
    hide *;
    var rows := ExpiredRows(db, now);
    ExpiredRowsGood(r, db, now);
    assert rows[0..] == rows;
    UnreadRefl(db, rows);
    GatheredNone(RecoverRows(db, r, rows, actor, now));
    RecoverTurnFrom(r, db, db, rows, 0, [], actor, now);
  }

  lemma RecoverTurnEnds(r: Redactor, db: Db, cur: Db, rows: seq<Id>, recovered: seq<ChildTask>, actor: Name, now: int)
    requires RecoverTurn(r, db, cur, rows, |rows|, recovered, actor, now)
    ensures AllPresent(db, rows) && RecoverRows(db, r, rows, actor, now) == Ok((cur, recovered))
  {
    hide Good;
    assert rows[|rows|..] == [];
    assert recovered + [] == recovered;
  }

  lemma RecoverRowsStep(db: Db, r: Redactor, rows: seq<Id>, actor: Name, now: int)
    requires rows != [] && AllPresent(db, rows) && HasStatus(db, rows[0], Running)
    ensures var t := UnknownTask(db, r, rows[0], now);
      var settled := EndAndSettle(db, t, actor, now);
      && t.id == rows[0]
      && (settled.Err? ==> RecoverRows(db, r, rows, actor, now) == Err(settled.error))
      && (settled.Ok? ==>
            && AllPresent(settled.value, rows[1..])
            && RecoverRows(db, r, rows, actor, now) == Gathered([t], RecoverRows(settled.value, r, rows[1..], actor, now)))
  {
    hide EndAndSettle, Rewritten, LEASE_EXPIRED;
  }

  lemma UnreadAfterEnd(db: Db, cur: Db, after: Db, rows: seq<Id>, id: Id)
    requires Unread(db, cur, rows) && AllRunning(cur, rows) && OnlyWaitersTouched(cur, after, id) && id !in rows
    ensures Unread(db, after, rows)
  {
    forall k | k in rows ensures k in after.tasks && after.tasks[k] == db.tasks[k] {
      assert HasStatus(cur, k, Running) && k in cur.tasks.Keys;
    }
  }

  /** What the loop knows about its next row: it still runs, and is as it was fetched. */
  lemma RecoverTurnRow(r: Redactor, db: Db, cur: Db, rows: seq<Id>, i: nat, recovered: seq<ChildTask>, actor: Name, now: int)
    requires RecoverTurn(r, db, cur, rows, i, recovered, actor, now) && i < |rows|
    ensures rows[i] in db.tasks && rows[i] in cur.tasks && cur.tasks[rows[i]] == db.tasks[rows[i]]
    ensures HasStatus(cur, rows[i], Running) && TaskAt(cur, rows[i]) == TaskAt(db, rows[i])
    ensures LegalEnd(cur, UnknownTask(cur, r, rows[i], now), actor, now)
  {
    hide *;
    RecoverTurnParts(r, db, cur, rows, i, recovered, actor, now);
    UnreadTail(db, cur, rows, i);
    Ahead(rows, i);
    FirstRuns(cur, rows[i..]);
    UnknownLegal(r, cur, rows[i], actor, now);
  }

  lemma RecoverTurnMoves(r: Redactor, db: Db, cur: Db, rows: seq<Id>, i: nat, recovered: seq<ChildTask>, actor: Name, now: int)
    requires RecoverTurn(r, db, cur, rows, i, recovered, actor, now) && i < |rows| && rows[i] in cur.tasks
    ensures var t := UnknownTask(cur, r, rows[i], now);
      var settled := EndAndSettle(cur, t, actor, now);
      && (settled.Err? ==> RecoverRows(db, r, rows, actor, now) == Err(settled.error))
      && (settled.Ok? ==> RecoverTurn(r, db, settled.value, rows, i + 1, recovered + [t], actor, now))
  {
    RecoverTurnParts(r, db, cur, rows, i, recovered, actor, now);
    hide *;
    RecoverTurnRow(r, db, cur, rows, i, recovered, actor, now);
    Ahead(rows, i);
    RecoverRowsStep(cur, r, rows[i..], actor, now);
    var t := UnknownTask(cur, r, rows[i], now);
    if EndAndSettle(cur, t, actor, now).Ok? {
      var after := EndAndSettle(cur, t, actor, now).value;
      RecoverStep(r, cur, rows[i..], actor, now);
      EndFootprint(r, cur, t, actor, now);
      TailDistinct(rows[i..]);
      UnreadTail(db, cur, rows, i);
      RunningTail(cur, rows[i..]);
      UnreadAfterEnd(db, cur, after, rows[i + 1..], rows[i]);
      GatheredTwice(recovered, [t], RecoverRows(after, r, rows[i + 1..], actor, now));
      RecoverTurnFrom(r, db, after, rows, i + 1, recovered + [t], actor, now);
    } else {
      GatheredErr(recovered, RecoverRows(cur, r, rows[i..], actor, now));
    }
  }

  lemma GatheredErr(a: seq<ChildTask>, o: Outcome<(Db, seq<ChildTask>)>)
    ensures o.Err? ==> Gathered(a, o) == o
  {}

  lemma RunningTail(db: Db, rows: seq<Id>)
    requires rows != [] && AllRunning(db, rows)
    ensures AllRunning(db, rows[1..])
  {}

  lemma UnknownIs(db: Db, r: Redactor, id: Id, now: int)
    requires id in db.tasks && db.tasks[id].status == Running
    ensures MarkUnknown(TaskAt(db, id), LEASE_EXPIRED, now).Ok?
    ensures UnknownTask(db, r, id, now) == Rewritten(r, MarkUnknown(TaskAt(db, id), LEASE_EXPIRED, now).value, now)
    ensures UnknownTask(db, r, id, now).id == id && TaskAt(db, id).revision == db.tasks[id].revision
  {
    hide LEASE_EXPIRED, Rewritten;
  }

  lemma RunningClaimed(r: Redactor, db: Db, id: Id)
    requires Good(r, db) && HasStatus(db, id, Running)
    ensures db.tasks[id].claim.Some?
    ensures ClaimedAttempt(db, id, Some(db.tasks[id].claim.value.attemptId))
  {
    hide Good;
    RowFacts(r, db, id);
  }

  // ----- Creation, heartbeats and deliveries -----

  lemma CreatePaths(db: Db, r: Redactor, t: ChildTask, actor: Name, key: Option<string>)
    ensures t.revision != 0 || t.status != Pending ==> Create(db, r, t, actor, key) == Txn(db, Err(InvalidValue))
    ensures t.revision == 0 && t.status == Pending && key.Some? && key.value in db.creationKeys ==>
      var id := db.creationKeys[key.value];
      Create(db, r, t, actor, key) ==
        if id !in db.tasks then Txn(db, Err(NotFound(id)))
        else if CreationPayload(TaskAt(db, id)) != CreationPayload(RedactTask(r, t)) then Txn(db, Err(WorkConflict))
        else Txn(db, Ok(TaskAt(db, id)))
    ensures t.revision == 0 && t.status == Pending && (key.Some? ==> key.value !in db.creationKeys) ==>
      Create(db, r, t, actor, key) == StoreNew(db, r, t, actor, key)
  {
    hide StoreNew, RedactTask;
  }

  lemma StoreNewPaths(db: Db, r: Redactor, t: ChildTask, actor: Name, key: Option<string>)
    ensures var lineage, missing, initial := ValidateLineage(db, t), FirstMissing(db, t.deps), InitialState(db, t);
      StoreNew(db, r, t, actor, key) ==
        if lineage.Err? then Txn(db, Err(lineage.error))
        else if missing.Some? then Txn(db, Err(NotFound(missing.value)))
        else if initial.Err? then Txn(db, Err(initial.error))
        else
          var stored := RedactTask(r, initial.value);
          if stored.id in db.tasks then Txn(db, Err(InvalidValue))
          else Txn(Insert(db, stored, key, EventRow(Created, actor, None, stored.createdAt)), Ok(stored))
  {
    hide InitialState, ValidateLineage, RedactTask, Insert, FirstMissing;
  }

  /** The ticket fits the row, which still runs under a lease that has not run out. */
  predicate Beatable(db: Db, t: Ticket, now: int) {
    && Holds(db, t) && db.tasks[t.taskId].status == Running && !db.tasks[t.taskId].cancelRequested
    && db.tasks[t.taskId].claim.value.lease >= now
  }

  lemma HeartbeatPaths(db: Db, t: Ticket, seconds: int, now: int)
    ensures seconds < 1 ==> Heartbeat(db, t, seconds, now) == Txn(db, Err(InvalidValue))
    ensures seconds >= 1 && !Beatable(db, t, now) ==> Heartbeat(db, t, seconds, now) == Txn(db, Err(LeaseConflict))
    ensures seconds >= 1 && Beatable(db, t, now) ==>
      && t.taskId in db.tasks && db.tasks[t.taskId].claim.Some?
      && Heartbeat(db, t, seconds, now) ==
           Txn(Beat(db, t.taskId, LeaseUntil(now, seconds), now), Ok(t.(lease := LeaseUntil(now, seconds))))
  {}

  /** The running attempt that a held ticket names is the newest one. */
  lemma BeatenAttempt(r: Redactor, db: Db, t: Ticket, now: int)
    requires Good(r, db) && Beatable(db, t, now)
    ensures var n := db.tasks[t.taskId].snapshot.attemptCount;
      && RunningAttempt(db, t.taskId, n, Some(t.attemptId)) == Some(n)
      && (t.taskId, n) in db.attempts && db.attempts[(t.taskId, n)].token == t.token
  {
    GoodParts(r, db);
    hide Good, RowsAgree, Founded, DependencyOrder, HistoryDense, OutboxAgrees, ParallelismBounded, Redacted;
    NewestRunning(db, t.taskId, Some(t.attemptId));
    var key := (t.taskId, db.tasks[t.taskId].snapshot.attemptCount);
    assert AttemptMatches(db.attempts[key], db.tasks[t.taskId].claim.value);
  }

  function NextToken(db: Db): nat {
    db.uuids
  }

  lemma ClaimDeliveryPaths(db: Db, worker: Name, seconds: int, now: int)
    ensures seconds < 1 ==> ClaimDelivery(db, worker, seconds, now) == Txn(db, Err(InvalidValue))
    ensures var lapsed := LapseDeliveries(db, now);
      var due := OldestDue(lapsed, |lapsed.sent|);
      seconds >= 1 ==>
        && (due.None? ==> ClaimDelivery(db, worker, seconds, now) == Txn(lapsed, Ok(None)))
        && (due.Some? ==>
              && due.value in lapsed.outbox
              && ClaimDelivery(db, worker, seconds, now) ==
                   Txn(PutDelivery(lapsed, due.value,
                                   ClaimedDelivery(lapsed.outbox[due.value], NextToken(db), worker, seconds, now), 1),
                       Ok(Some(DeliveryTicket(due.value, NextToken(db))))))
  {
    hide OldestDue, LeaseUntil;
  }

  function ClaimedDelivery(d: DeliveryRow, token: nat, worker: Name, seconds: int, now: int): DeliveryRow {
    d.(status := DeliveryClaimed, token := Some(token), worker := Some(worker),
       lease := Some(LeaseUntil(now, seconds)), attempts := d.attempts + 1, updatedAt := now, error := None)
  }
}

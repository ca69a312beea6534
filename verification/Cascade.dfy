/**
 The traversal behind cascading blocking.

 When a task ends without completing, its blockable dependents are blocked and
 each blocked dependent is cascaded from in turn.  A frame of that recursion
 lists its rows once, before it blocks any of them, so a row that an earlier
 sibling's cascade has already blocked is stale by the time its turn comes, and
 the revision check on the update rejects it.

 A traversal depends only on who lists whom and on which tasks are still
 blockable, so it is studied here on a graph.
 */
module Cascade {
  import opened Basics

  /** For each task, its dependents in listing order. */
  type Graph = map<Id, seq<Id>>

  function Rows(g: Graph, x: Id): seq<Id> {
    if x in g then g[x] else []
  }

  /** The result of a traversal: the rows blocked, each with the task it was
      blocked for, and the tasks still blockable; or the first stale row. */
  datatype Walked = Conflict(at: Id) | Done(edges: seq<(Id, Id)>, left: set<Id>)

  /** One frame: list the blockable dependents of `x`, then work through them. */
  function Walk(g: Graph, x: Id, p: set<Id>): (w: Walked)
    ensures w.Done? ==> w.left <= p
    ensures w.Conflict? ==> w.at in p
    decreases |p|, |Rows(g, x)| + 1
  {
    WalkRows(g, x, Picked(Rows(g, x), p), p)
  }

  function WalkRows(g: Graph, x: Id, rows: seq<Id>, p: set<Id>): (w: Walked)
    ensures w.Done? ==> w.left <= p
    ensures w.Conflict? ==> w.at in p || w.at in rows
    decreases |p|, |rows|
  {
    if rows == [] then Done([], p)
    else if rows[0] !in p then Conflict(rows[0])
    else
      var below := Walk(g, rows[0], p - {rows[0]});
      if below.Conflict? then below
      else
        CardinalityOfSubset(below.left, p - {rows[0]});
        var rest := WalkRows(g, x, rows[1..], below.left);
        if rest.Conflict? then rest
        else Done([(x, rows[0])] + below.edges + rest.edges, rest.left)
  }

  // ----- Reachability through blockable tasks -----

  /** `q` leads from `x` along dependents, and every task on it is in `p`. */
  ghost predicate Route(g: Graph, p: set<Id>, x: Id, q: seq<Id>)
    decreases |q|
  {
    && q != []
    && q[0] in Rows(g, x)
    && q[0] in p
    && (|q| > 1 ==> Route(g, p, q[0], q[1..]))
  }

  ghost predicate Reaches(g: Graph, p: set<Id>, x: Id, b: Id) {
    exists q :: Route(g, p, x, q) && Last(q) == b
  }

  /** `b` is `a` or lies below it, with everything from `a` on blockable. */
  ghost predicate Hits(g: Graph, p: set<Id>, a: Id, b: Id) {
    a in p && (a == b || Reaches(g, p, a, b))
  }

  /** The first row that is `b` or leads to it. */
  ghost function First(g: Graph, p: set<Id>, rows: seq<Id>, b: Id): (a: Option<Id>)
    ensures a.Some? ==> a.value in rows && Hits(g, p, a.value, b)
    ensures a.None? ==> forall r :: r in rows ==> !Hits(g, p, r, b)
  {
    if rows == [] then None
    else if Hits(g, p, rows[0], b) then Some(rows[0])
    else First(g, p, rows[1..], b)
  }

  /** Follow, from a frame listing `rows`, the first listed row that leads to
      `b`: some frame on that route lists `b` itself behind the row taken. */
  ghost predicate Overtaken(g: Graph, p: set<Id>, rows: seq<Id>, b: Id)
    decreases |p|
  {
    var a := First(g, p, rows, b);
    a.Some? && a.value != b && (b in rows || Overtaken(g, p - {a.value}, Rows(g, a.value), b))
  }

  // ----- Routes -----

  lemma {:induction false} RouteInSet(g: Graph, p: set<Id>, x: Id, q: seq<Id>)
    requires Route(g, p, x, q)
    ensures forall i :: 0 <= i < |q| ==> q[i] in p
    decreases |q|
  {
    if |q| > 1 {
      RouteInSet(g, p, q[0], q[1..]);
      forall i | 0 <= i < |q| ensures q[i] in p {
        if i > 0 { assert q[1..][i - 1] in p; }
      }
    }
  }

  lemma {:induction false} RouteWithin(g: Graph, p: set<Id>, p': set<Id>, x: Id, q: seq<Id>)
    requires Route(g, p, x, q)
    requires forall i :: 0 <= i < |q| ==> q[i] in p'
    ensures Route(g, p', x, q)
    decreases |q|
  {
    if |q| > 1 {
      forall i | 0 <= i < |q[1..]| ensures q[1..][i] in p' { assert q[1..][i] == q[i + 1]; }
      RouteWithin(g, p, p', q[0], q[1..]);
    }
  }

  /** The part of a route behind one of its tasks is a route from that task. */
  lemma {:induction false} RouteSuffix(g: Graph, p: set<Id>, x: Id, q: seq<Id>, i: nat)
    requires Route(g, p, x, q) && i + 1 < |q|
    ensures Route(g, p, q[i], q[i + 1..])
    decreases |q|
  {
    if i > 0 {
      RouteSuffix(g, p, q[0], q[1..], i - 1);
      assert q[1..][i..] == q[i + 1..];
    }
  }

  lemma {:induction false} RouteThen(g: Graph, p: set<Id>, x: Id, q: seq<Id>, q': seq<Id>)
    requires Route(g, p, x, q) && Route(g, p, Last(q), q')
    ensures Route(g, p, x, q + q') && Last(q + q') == Last(q')
    decreases |q|
  {
    assert (q + q')[1..] == q[1..] + q';
    if |q| > 1 {
      RouteThen(g, p, q[0], q[1..], q');
    } else {
      assert q[1..] == [];
      assert q[1..] + q' == q';
    }
  }

  lemma ReachesThrough(g: Graph, p: set<Id>, x: Id, m: Id, b: Id)
    requires Reaches(g, p, x, m) && Reaches(g, p, m, b)
    ensures Reaches(g, p, x, b)
  {
    var q :| Route(g, p, x, q) && Last(q) == m;
    var q' :| Route(g, p, m, q') && Last(q') == b;
    RouteThen(g, p, x, q, q');
  }

  lemma ReachesStep(g: Graph, p: set<Id>, x: Id, r: Id)
    requires r in Rows(g, x) && r in p
    ensures Reaches(g, p, x, r)
    ensures forall b :: Reaches(g, p, r, b) ==> Reaches(g, p, x, b)
  {
    assert Route(g, p, x, [r]) && Last([r]) == r;
    forall b | Reaches(g, p, r, b) ensures Reaches(g, p, x, b) {
      ReachesThrough(g, p, x, r, b);
    }
  }

  lemma ReachesInSet(g: Graph, p: set<Id>, x: Id, b: Id)
    requires Reaches(g, p, x, b)
    ensures b in p
  {
    var q :| Route(g, p, x, q) && Last(q) == b;
    RouteInSet(g, p, x, q);
  }

  lemma ReachesMonotone(g: Graph, p: set<Id>, p': set<Id>, x: Id, b: Id)
    requires p <= p' && Reaches(g, p, x, b)
    ensures Reaches(g, p', x, b)
  {
    var q :| Route(g, p, x, q) && Last(q) == b;
    RouteInSet(g, p, x, q);
    RouteWithin(g, p, p', x, q);
  }

  /** A route from `x` need not come back to `x`. */
  lemma {:induction false} ReachesWithoutReturn(g: Graph, p: set<Id>, x: Id, q: seq<Id>)
    requires Route(g, p, x, q) && Last(q) != x
    ensures Reaches(g, p - {x}, x, Last(q))
    decreases |q|
  {
    RouteInSet(g, p, x, q);
    if i :| 0 <= i < |q| && q[i] == x {
      RouteSuffix(g, p, x, q, i);
      ReachesWithoutReturn(g, p, x, q[i + 1..]);
    } else {
      RouteWithin(g, p, p - {x}, x, q);
    }
  }

  /** Tasks that cannot lead to `b` may be dropped without changing how `b` is reached. */
  lemma ReachesAfterDropping(g: Graph, p: set<Id>, p': set<Id>, x: Id, b: Id)
    requires p' <= p && b in p'
    requires forall n :: n in p && n !in p' ==> !Hits(g, p, n, b)
    ensures Reaches(g, p', x, b) <==> Reaches(g, p, x, b)
  {
    if Reaches(g, p', x, b) { ReachesMonotone(g, p', p, x, b); }
    if Reaches(g, p, x, b) {
      var q :| Route(g, p, x, q) && Last(q) == b;
      RouteInSet(g, p, x, q);
      forall i | 0 <= i < |q| ensures q[i] in p' {
        if q[i] !in p' && i + 1 < |q| { RouteSuffix(g, p, x, q, i); }
      }
      RouteWithin(g, p, p', x, q);
    }
  }

  // ----- A traversal that finishes blocks exactly what is reachable -----

  ghost predicate Listed(g: Graph, p: set<Id>, rows: seq<Id>, b: Id) {
    exists r :: r in rows && Hits(g, p, r, b)
  }

  /** What is left after the first row's cascade: everything that row does not hit. */
  ghost predicate LeftAfter(g: Graph, p: set<Id>, r: Id, left: set<Id>) {
    left <= p && forall b :: b in p ==> (b in left <==> !Hits(g, p, r, b))
  }

  lemma LeftBelow(g: Graph, p: set<Id>, r: Id, left: set<Id>)
    requires r in p && left <= p - {r}
    requires forall b :: b in p - {r} ==> (b in left <==> !Reaches(g, p - {r}, r, b))
    ensures LeftAfter(g, p, r, left)
  {
    forall b | b in p ensures b in left <==> !Hits(g, p, r, b) {
      if b != r {
        if Reaches(g, p, r, b) {
          var q :| Route(g, p, r, q) && Last(q) == b;
          ReachesWithoutReturn(g, p, r, q);
        }
        if Reaches(g, p - {r}, r, b) { ReachesMonotone(g, p - {r}, p, r, b); }
      }
    }
  }

  /** Dropping what `r` hits leaves every other row's hits as they were. */
  lemma HitsAfter(g: Graph, p: set<Id>, r: Id, left: set<Id>, a: Id, b: Id)
    requires LeftAfter(g, p, r, left) && b in left
    ensures Hits(g, left, a, b) <==> Hits(g, p, a, b)
    ensures forall n :: n in p && n !in left ==> !Hits(g, p, n, b)
  {
    forall n | n in p && n !in left && Hits(g, p, n, b) ensures false {
      if n != r && n != b { ReachesThrough(g, p, r, n, b); }
    }
    ReachesAfterDropping(g, p, left, a, b);
  }

  lemma {:induction false} WalkRowsClosure(g: Graph, x: Id, rows: seq<Id>, p: set<Id>)
    requires WalkRows(g, x, rows, p).Done?
    ensures var left := WalkRows(g, x, rows, p).left;
            forall b :: b in p ==> (b in left <==> !Listed(g, p, rows, b))
    decreases |p|, |rows|
  {
    if rows != [] {
      var r, left := rows[0], WalkRows(g, x, rows, p).left;
      WalkClosure(g, r, p - {r});
      var mid := Walk(g, r, p - {r}).left;
      LeftBelow(g, p, r, mid);
      CardinalityOfSubset(mid, p - {r});
      WalkRowsClosure(g, x, rows[1..], mid);
      forall b | b in p ensures b in left <==> !Listed(g, p, rows, b) {
        if b in mid { ListedAfter(g, p, rows, mid, b); }
      }
    }
  }

  /** A traversal from `x` that meets no stale row leaves exactly the tasks
      that cannot be reached from `x` through blockable dependents. */
  lemma {:induction false} WalkClosure(g: Graph, x: Id, p: set<Id>)
    requires Walk(g, x, p).Done?
    ensures forall b :: b in p ==> (b in Walk(g, x, p).left <==> !Reaches(g, p, x, b))
    decreases |p|, |Rows(g, x)| + 1
  {
    var rows := Picked(Rows(g, x), p);
    WalkRowsClosure(g, x, rows, p);
    forall b | b in p ensures Listed(g, p, rows, b) <==> Reaches(g, p, x, b) { ListedReaches(g, x, p, b); }
  }

  // ----- The rows blocked, in order -----

  function Blocked(edges: seq<(Id, Id)>): seq<Id> {
    seq(|edges|, i requires 0 <= i < |edges| => edges[i].1)
  }

  /** Every row was listed by the task it is blocked for, and that task is `x`
      or was itself blocked earlier. */
  ghost predicate FromBlocked(g: Graph, x: Id, edges: seq<(Id, Id)>) {
    forall i :: 0 <= i < |edges| ==>
      && edges[i].1 in Rows(g, edges[i].0)
      && (edges[i].0 == x || exists j :: 0 <= j < i && edges[j].1 == edges[i].0)
  }

  ghost predicate EachOnce(edges: seq<(Id, Id)>, s: set<Id>) {
    && (forall i, j :: 0 <= i < j < |edges| ==> edges[i].1 != edges[j].1)
    && (forall b :: b in s <==> exists i :: 0 <= i < |edges| && edges[i].1 == b)
  }

  lemma EachOnceJoined(r: (Id, Id), e1: seq<(Id, Id)>, s1: set<Id>, e2: seq<(Id, Id)>, s2: set<Id>)
    requires EachOnce(e1, s1) && EachOnce(e2, s2) && s1 !! s2 && r.1 !in s1 && r.1 !in s2
    ensures EachOnce([r] + e1 + e2, {r.1} + s1 + s2)
  {
    var e := [r] + e1 + e2;
    forall i, j | 0 <= i < j < |e| ensures e[i].1 != e[j].1 {
      assert i >= 1 ==> (if i <= |e1| then e[i] == e1[i - 1] && e[i].1 in s1 else e[i] == e2[i - 1 - |e1|] && e[i].1 in s2);
      assert if j <= |e1| then e[j] == e1[j - 1] && e[j].1 in s1 else e[j] == e2[j - 1 - |e1|] && e[j].1 in s2;
    }
    forall b ensures b in {r.1} + s1 + s2 <==> exists i :: 0 <= i < |e| && e[i].1 == b {
      if b == r.1 { assert e[0].1 == b; }
      if b in s1 { var i :| 0 <= i < |e1| && e1[i].1 == b; assert e[i + 1].1 == b; }
      if b in s2 { var i :| 0 <= i < |e2| && e2[i].1 == b; assert e[i + 1 + |e1|].1 == b; }
    }
  }

  /** The edge at `i` comes from `x` or from a task blocked before it. */
  ghost predicate FromEarlier(g: Graph, x: Id, edges: seq<(Id, Id)>, i: nat) {
    && i < |edges| && edges[i].1 in Rows(g, edges[i].0)
    && (edges[i].0 == x || exists j :: 0 <= j < i && edges[j].1 == edges[i].0)
  }

  /** An edge keeps its place when its sequence becomes part of a longer one. */
  lemma FromEarlierShifted(g: Graph, x: Id, part: seq<(Id, Id)>, k: nat, edges: seq<(Id, Id)>, offset: nat)
    requires FromEarlier(g, x, part, k) && offset + |part| <= |edges| && edges[offset..offset + |part|] == part
    ensures edges[offset + k] == part[k] && edges[offset + k].1 in Rows(g, edges[offset + k].0)
    ensures part[k].0 == x || FromEarlier(g, x, edges, offset + k)
  {
    assert edges[offset..offset + |part|][k] == edges[offset + k];
    if part[k].0 != x {
      var j :| 0 <= j < k && part[j].1 == part[k].0;
      assert edges[offset..offset + |part|][j] == edges[offset + j];
    }
  }

  lemma FromBlockedJoined(g: Graph, x: Id, r: Id, e1: seq<(Id, Id)>, e2: seq<(Id, Id)>)
    requires r in Rows(g, x) && FromBlocked(g, r, e1) && FromBlocked(g, x, e2)
    ensures FromBlocked(g, x, [(x, r)] + e1 + e2)
  {
    var e := [(x, r)] + e1 + e2;
    assert e[0] == (x, r) && e[1..1 + |e1|] == e1 && e[1 + |e1|..1 + |e1| + |e2|] == e2;
    hide Rows;
    forall i: nat | i < |e| ensures FromEarlier(g, x, e, i) {
      if 1 <= i <= |e1| {
        assert FromEarlier(g, r, e1, i - 1);
        FromEarlierShifted(g, r, e1, i - 1, e, 1);
      } else if i > |e1| {
        assert FromEarlier(g, x, e2, i - 1 - |e1|);
        FromEarlierShifted(g, x, e2, i - 1 - |e1|, e, 1 + |e1|);
      }
    }
    hide FromBlocked;
    FromEarlierAll(g, x, e);
  }

  lemma FromEarlierAll(g: Graph, x: Id, e: seq<(Id, Id)>)
    requires forall i: nat :: i < |e| ==> FromEarlier(g, x, e, i)
    ensures FromBlocked(g, x, e)
  {
    forall i | 0 <= i < |e|
      ensures e[i].1 in Rows(g, e[i].0) && (e[i].0 == x || exists j :: 0 <= j < i && e[j].1 == e[i].0)
    {
      assert FromEarlier(g, x, e, i);
    }
  }

  lemma EdgesJoined(g: Graph, x: Id, r: Id, p: set<Id>, below: Walked, rest: Walked)
    requires r in p && r in Rows(g, x)
    requires below.Done? && below.left <= p - {r} && EachOnce(below.edges, p - {r} - below.left)
    requires rest.Done? && rest.left <= below.left && EachOnce(rest.edges, below.left - rest.left)
    requires FromBlocked(g, r, below.edges) && FromBlocked(g, x, rest.edges)
    ensures var edges := [(x, r)] + below.edges + rest.edges;
            EachOnce(edges, p - rest.left) && FromBlocked(g, x, edges)
  {
    EachOnceJoined((x, r), below.edges, p - {r} - below.left, rest.edges, below.left - rest.left);
    FromBlockedJoined(g, x, r, below.edges, rest.edges);
    assert {r} + (p - {r} - below.left) + (below.left - rest.left) == p - rest.left;
  }

  lemma {:induction false} WalkRowsEdges(g: Graph, x: Id, rows: seq<Id>, p: set<Id>)
    requires WalkRows(g, x, rows, p).Done?
    requires forall r :: r in rows ==> r in Rows(g, x)
    ensures var w := WalkRows(g, x, rows, p);
            EachOnce(w.edges, p - w.left) && FromBlocked(g, x, w.edges)
    decreases |p|, |rows|
  {
    if rows != [] {
      var r := rows[0];
      WalkEdges(g, r, p - {r});
      var below := Walk(g, r, p - {r});
      CardinalityOfSubset(below.left, p - {r});
      WalkRowsEdges(g, x, rows[1..], below.left);
      var rest := WalkRows(g, x, rows[1..], below.left);
      EdgesJoined(g, x, r, p, below, rest);
    }
  }

  /** A finished traversal blocks every task that left `p` exactly once, each for
      a task that lists it and is `x` or was blocked before. */
  lemma {:induction false} WalkEdges(g: Graph, x: Id, p: set<Id>)
    requires Walk(g, x, p).Done?
    ensures var w := Walk(g, x, p);
            EachOnce(w.edges, p - w.left) && FromBlocked(g, x, w.edges)
    decreases |p|, |Rows(g, x)| + 1
  {
    WalkRowsEdges(g, x, Picked(Rows(g, x), p), p);
  }

  // ----- A traversal meets a stale row exactly when a row is overtaken -----

  /** Dropping tasks that cannot lead to `b` changes nothing for `b`. */
  lemma {:induction false} OvertakenAfterDropping(g: Graph, p: set<Id>, p': set<Id>, rows: seq<Id>, b: Id)
    requires p' <= p && b in p'
    requires forall n :: n in p && n !in p' ==> !Hits(g, p, n, b)
    ensures First(g, p', rows, b) == First(g, p, rows, b)
    ensures Overtaken(g, p', rows, b) <==> Overtaken(g, p, rows, b)
    decreases |p|
  {
    FirstAfterDropping(g, p, p', rows, b);
    var a := First(g, p, rows, b);
    if a.Some? && a.value != b {
      forall n | n in p - {a.value} && n !in p' - {a.value} ensures !Hits(g, p - {a.value}, n, b) {
        if Hits(g, p - {a.value}, n, b) { ReachesMonotone(g, p - {a.value}, p, n, b); }
      }
      OvertakenAfterDropping(g, p - {a.value}, p' - {a.value}, Rows(g, a.value), b);
    }
  }

  lemma {:induction false} FirstAfterDropping(g: Graph, p: set<Id>, p': set<Id>, rows: seq<Id>, b: Id)
    requires p' <= p && b in p'
    requires forall n :: n in p && n !in p' ==> !Hits(g, p, n, b)
    ensures First(g, p', rows, b) == First(g, p, rows, b)
    decreases |rows|
  {
    if rows != [] {
      ReachesAfterDropping(g, p, p', rows[0], b);
      FirstAfterDropping(g, p, p', rows[1..], b);
    }
  }

  ghost predicate SomeStale(rows: seq<Id>, p: set<Id>) {
    exists r :: r in rows && r !in p
  }

  ghost predicate SomeOvertaken(g: Graph, p: set<Id>, rows: seq<Id>) {
    exists b :: b in p && Overtaken(g, p, rows, b)
  }

  lemma {:induction false} WalkRowsConflict(g: Graph, x: Id, rows: seq<Id>, p: set<Id>)
    requires forall i, j :: 0 <= i < j < |rows| ==> rows[i] != rows[j]
    requires forall y :: NoDuplicates(Rows(g, y))
    ensures WalkRows(g, x, rows, p).Conflict? <==> SomeStale(rows, p) || SomeOvertaken(g, p, rows)
    decreases |p|, |rows|
  {
    if rows != [] && rows[0] in p {
      var r, rest := rows[0], rows[1..];
      assert rows == [r] + rest;
      WalkConflict(g, r, p - {r});
      if Walk(g, r, p - {r}).Conflict? {
        var b :| b in p - {r} && Overtaken(g, p - {r}, Rows(g, r), b);
        var a := First(g, p - {r}, Rows(g, r), b).value;
        ReachesStep(g, p - {r}, r, a);
        ReachesMonotone(g, p - {r}, p, r, b);
        assert Overtaken(g, p, rows, b);
      } else {
        var mid := Walk(g, r, p - {r}).left;
        WalkClosure(g, r, p - {r});
        LeftBelow(g, p, r, mid);
        CardinalityOfSubset(mid, p - {r});
        WalkRowsConflict(g, x, rest, mid);
        if SomeStale(rest, mid) { StaleInRest(g, p, r, rest, mid); }
        if SomeOvertaken(g, mid, rest) {
          var b :| b in mid && Overtaken(g, mid, rest, b);
          OvertakenInRest(g, p, r, rest, mid, b);
        }
        if SomeOvertaken(g, p, rows) {
          var b :| b in p && Overtaken(g, p, rows, b);
          if Hits(g, p, r, b) {
            OvertakenAtFirst(g, p, r, rest, b);
          } else {
            OvertakenInRest(g, p, r, rest, mid, b);
          }
        }
      }
    }
  }

  lemma StaleInRest(g: Graph, p: set<Id>, r: Id, rest: seq<Id>, mid: set<Id>)
    requires r in p && r !in rest && LeftAfter(g, p, r, mid) && SomeStale(rest, mid)
    ensures SomeStale([r] + rest, p) || SomeOvertaken(g, p, [r] + rest)
  {
    var b :| b in rest && b !in mid;
    assert b in [r] + rest;
    if b in p {
      assert Hits(g, p, r, b);
      assert First(g, p, [r] + rest, b) == Some(r);
      assert Overtaken(g, p, [r] + rest, b);
    }
  }

  lemma OvertakenAtFirst(g: Graph, p: set<Id>, r: Id, rest: seq<Id>, b: Id)
    requires r in p && r !in rest && Hits(g, p, r, b) && Overtaken(g, p, [r] + rest, b)
    ensures r != b
    ensures b in rest || Overtaken(g, p - {r}, Rows(g, r), b)
    ensures b in p
  {
    assert First(g, p, [r] + rest, b) == Some(r);
    if b != r { ReachesInSet(g, p, r, b); }
  }

  lemma OvertakenInRest(g: Graph, p: set<Id>, r: Id, rest: seq<Id>, mid: set<Id>, b: Id)
    requires r in p && r !in rest && LeftAfter(g, p, r, mid) && b in mid
    ensures Overtaken(g, mid, rest, b) <==> Overtaken(g, p, [r] + rest, b)
  {
    HitsAfter(g, p, r, mid, b, b);
    OvertakenAfterDropping(g, p, mid, rest, b);
    assert ([r] + rest)[1..] == rest;
    assert First(g, p, [r] + rest, b) == First(g, p, rest, b);
    assert b in [r] + rest <==> b in rest;
  }

  /** A traversal from `x` meets a stale row if and only if some blockable task
      is listed by a frame on its own first-listed route from `x` before the
      last one. */
  lemma {:induction false} WalkConflict(g: Graph, x: Id, p: set<Id>)
    requires forall y :: NoDuplicates(Rows(g, y))
    ensures Walk(g, x, p).Conflict? <==> SomeOvertaken(g, p, Rows(g, x))
    decreases |p|, |Rows(g, x)| + 1
  {
    var rows := Picked(Rows(g, x), p);
    PickedNoDuplicates(Rows(g, x), p);
    WalkRowsConflict(g, x, rows, p);
    forall b | b in p ensures Overtaken(g, p, rows, b) <==> Overtaken(g, p, Rows(g, x), b) {
      FirstPicked(g, p, Rows(g, x), b);
    }
  }

  lemma {:induction false} FirstPicked(g: Graph, p: set<Id>, rows: seq<Id>, b: Id)
    ensures First(g, p, Picked(rows, p), b) == First(g, p, rows, b)
  {
    if rows != [] {
      FirstPicked(g, p, rows[1..], b);
      if rows[0] in p {
        assert Picked(rows, p)[1..] == Picked(rows[1..], p);
      }
    }
  }

  // ----- One traversal after another -----

  /** Traverse from each of `xs` in turn, each time on what the last one left: one conflicts. */
  ghost predicate WalksConflict(g: Graph, xs: seq<Id>, p: set<Id>)
    decreases |xs|
  {
    && xs != []
    && (Walk(g, xs[0], p).Conflict? || WalksConflict(g, xs[1..], Walk(g, xs[0], p).left))
  }

  /** `b` is overtaken below the `i`-th start, and no earlier one leads to it. */
  ghost predicate Caught(g: Graph, p: set<Id>, xs: seq<Id>, i: nat, b: Id) {
    && i < |xs| && b in p
    && (forall j :: 0 <= j < i ==> !Reaches(g, p, xs[j], b))
    && Overtaken(g, p, Rows(g, xs[i]), b)
  }

  ghost predicate SomeCaught(g: Graph, p: set<Id>, xs: seq<Id>) {
    exists i: nat, b: Id :: Caught(g, p, xs, i, b)
  }

  /** What a first traversal leaves is closed: nothing it took leads into it. */
  lemma LeftIsClosed(g: Graph, x: Id, p: set<Id>, left: set<Id>, b: Id)
    requires left <= p && b in left
    requires forall n :: n in p ==> (n in left <==> !Reaches(g, p, x, n))
    ensures forall n :: n in p && n !in left ==> !Hits(g, p, n, b)
  {
    forall n | n in p && n !in left ensures !Hits(g, p, n, b) {
      if Reaches(g, p, n, b) { ReachesThrough(g, p, x, n, b); }
    }
  }

  /** Being caught further on is the same on what is left as it was at the start. */
  lemma CaughtAfter(g: Graph, x: Id, rest: seq<Id>, p: set<Id>, left: set<Id>, i: nat, b: Id)
    requires left <= p
    requires forall n :: n in p ==> (n in left <==> !Reaches(g, p, x, n))
    ensures Caught(g, left, rest, i, b) <==> Caught(g, p, [x] + rest, i + 1, b)
  {
    var xs := [x] + rest;
    assert |xs| == |rest| + 1 && xs[0] == x;
    assert Caught(g, p, xs, i + 1, b) ==> !Reaches(g, p, xs[0], b);
    if i < |rest| && b in p && b in left {
      LeftIsClosed(g, x, p, left, b);
      forall j | 0 <= j < i ensures Reaches(g, left, rest[j], b) <==> Reaches(g, p, xs[j + 1], b) {
        ReachesAfterDropping(g, p, left, rest[j], b);
      }
      OvertakenAfterDropping(g, p, left, Rows(g, rest[i]), b);
      assert xs[i + 1] == rest[i] && xs[0] == x;
      forall j | 0 < j < i + 1 ensures xs[j] == rest[j - 1] {}
      hide Reaches, Overtaken;
    }
  }

  lemma CaughtFirst(g: Graph, p: set<Id>, xs: seq<Id>, b: Id)
    requires xs != []
    ensures Caught(g, p, xs, 0, b) <==> b in p && Overtaken(g, p, Rows(g, xs[0]), b)
  {}

  lemma SomeCaughtAfter(g: Graph, x: Id, rest: seq<Id>, p: set<Id>, left: set<Id>)
    requires left <= p && !SomeOvertaken(g, p, Rows(g, x))
    requires forall n :: n in p ==> (n in left <==> !Reaches(g, p, x, n))
    ensures SomeCaught(g, left, rest) <==> SomeCaught(g, p, [x] + rest)
  {
    if SomeCaught(g, left, rest) {
      var i: nat, b :| Caught(g, left, rest, i, b);
      CaughtAfter(g, x, rest, p, left, i, b);
    }
    if SomeCaught(g, p, [x] + rest) {
      var i: nat, b :| Caught(g, p, [x] + rest, i, b);
      CaughtFirst(g, p, [x] + rest, b);
      assert i > 0;
      CaughtAfter(g, x, rest, p, left, i - 1, b);
    }
  }

  /** Traversals one after another: one of them conflicts if and only if some task is overtaken
      below the first start that leads to it, all read off before the first. */
  lemma {:induction false} WalksConflictExactly(g: Graph, xs: seq<Id>, p: set<Id>)
    requires forall y :: NoDuplicates(Rows(g, y))
    ensures WalksConflict(g, xs, p) <==> SomeCaught(g, p, xs)
    decreases |xs|
  {
    if xs != [] {
      var x, rest := xs[0], xs[1..];
      assert xs == [x] + rest;
      hide Walk, Overtaken, Reaches, NoDuplicates, Caught;
      WalkConflict(g, x, p);
      if Walk(g, x, p).Conflict? {
        var b :| b in p && Overtaken(g, p, Rows(g, x), b);
        CaughtFirst(g, p, xs, b);
      } else {
        WalkClosure(g, x, p);
        WalksConflictExactly(g, rest, Walk(g, x, p).left);
        SomeCaughtAfter(g, x, rest, p, Walk(g, x, p).left);
      }
    } else {
      NoneCaught(g, xs, p);
    }
  }

  lemma NoneCaught(g: Graph, xs: seq<Id>, p: set<Id>)
    requires xs == []
    ensures !SomeCaught(g, p, xs)
  {}

  // ----- The same traversal, had it looked again before each update -----

  /** Skip a row that is no longer blockable instead of updating it. */
  function Mended(g: Graph, x: Id, p: set<Id>): (left: set<Id>)
    ensures left <= p
    decreases |p|, |Rows(g, x)| + 1
  {
    MendedRows(g, x, Picked(Rows(g, x), p), p)
  }

  function MendedRows(g: Graph, x: Id, rows: seq<Id>, p: set<Id>): (left: set<Id>)
    ensures left <= p
    decreases |p|, |rows|
  {
    if rows == [] then p
    else if rows[0] !in p then MendedRows(g, x, rows[1..], p)
    else
      var below := Mended(g, rows[0], p - {rows[0]});
      CardinalityOfSubset(below, p - {rows[0]});
      MendedRows(g, x, rows[1..], below)
  }

  lemma ListedTail(g: Graph, p: set<Id>, rows: seq<Id>, b: Id)
    requires rows != [] && rows[0] !in p
    ensures Listed(g, p, rows, b) <==> Listed(g, p, rows[1..], b)
  {
    if Listed(g, p, rows, b) {
      var r :| r in rows && Hits(g, p, r, b);
      assert r in rows[1..];
    }
  }

  lemma {:induction false} MendedRowsClosure(g: Graph, x: Id, rows: seq<Id>, p: set<Id>)
    ensures var left := MendedRows(g, x, rows, p);
            forall b :: b in p ==> (b in left <==> !Listed(g, p, rows, b))
    decreases |p|, |rows|
  {
    if rows != [] {
      var r, left := rows[0], MendedRows(g, x, rows, p);
      if r !in p {
        MendedRowsClosure(g, x, rows[1..], p);
        forall b | b in p ensures Listed(g, p, rows, b) <==> Listed(g, p, rows[1..], b) { ListedTail(g, p, rows, b); }
      } else {
        MendedClosure(g, r, p - {r});
        var mid := Mended(g, r, p - {r});
        LeftBelow(g, p, r, mid);
        CardinalityOfSubset(mid, p - {r});
        MendedRowsClosure(g, x, rows[1..], mid);
        forall b | b in p ensures b in left <==> !Listed(g, p, rows, b) {
          if b in mid { ListedAfter(g, p, rows, mid, b); }
        }
      }
    }
  }

  lemma ListedAfter(g: Graph, p: set<Id>, rows: seq<Id>, mid: set<Id>, b: Id)
    requires rows != [] && LeftAfter(g, p, rows[0], mid) && b in mid
    ensures Listed(g, mid, rows[1..], b) <==> Listed(g, p, rows, b)
  {
    forall a | a in rows[1..] ensures Hits(g, mid, a, b) <==> Hits(g, p, a, b) {
      HitsAfter(g, p, rows[0], mid, a, b);
    }
    if Listed(g, p, rows, b) {
      var a :| a in rows && Hits(g, p, a, b);
      assert a in rows[1..];
    }
  }

  /** Looking again, the cascade never raises and always blocks exactly what is reachable. */
  lemma {:induction false} MendedClosure(g: Graph, x: Id, p: set<Id>)
    ensures forall b :: b in p ==> (b in Mended(g, x, p) <==> !Reaches(g, p, x, b))
    decreases |p|, |Rows(g, x)| + 1
  {
    var rows := Picked(Rows(g, x), p);
    MendedRowsClosure(g, x, rows, p);
    forall b | b in p ensures Listed(g, p, rows, b) <==> Reaches(g, p, x, b) { ListedReaches(g, x, p, b); }
  }

  lemma ListedReaches(g: Graph, x: Id, p: set<Id>, b: Id)
    ensures Listed(g, p, Picked(Rows(g, x), p), b) <==> Reaches(g, p, x, b)
  {
    var rows := Picked(Rows(g, x), p);
    if Listed(g, p, rows, b) {
      var r :| r in rows && Hits(g, p, r, b);
      ReachesStep(g, p, x, r);
    }
    if Reaches(g, p, x, b) {
      var q :| Route(g, p, x, q) && Last(q) == b;
      if |q| > 1 { assert Last(q[1..]) == b; }
      assert Hits(g, p, q[0], b);
    }
  }

  /** Where the cascade as it is does not raise, it blocks the same tasks. */
  lemma WalkIsMended(g: Graph, x: Id, p: set<Id>)
    requires Walk(g, x, p).Done?
    ensures Walk(g, x, p).left == Mended(g, x, p)
  {
    WalkClosure(g, x, p);
    MendedClosure(g, x, p);
    hide Walk, Mended, Reaches;
  }

  // ----- Readings of the condition -----

  /** Two dependents of one task, one of which leads to the other. */
  ghost predicate RedundantEdge(g: Graph, p: set<Id>) {
    exists y, a, b :: a in Rows(g, y) && b in Rows(g, y) && a != b && b in p && Hits(g, p, a, b)
  }

  /** Without a redundant edge among the blockable tasks no row is overtaken. */
  lemma {:induction false} OvertakenNeedsRedundantEdge(g: Graph, p: set<Id>, x: Id, b: Id)
    requires b in p && Overtaken(g, p, Rows(g, x), b)
    ensures RedundantEdge(g, p)
    decreases |p|
  {
    var a := First(g, p, Rows(g, x), b).value;
    if b !in Rows(g, x) {
      OvertakenNeedsRedundantEdge(g, p - {a}, a, b);
      var y, c, d :| c in Rows(g, y) && d in Rows(g, y) && c != d && d in p - {a} && Hits(g, p - {a}, c, d);
      ReachesMonotone'(g, p - {a}, p, c, d);
    }
  }

  lemma ReachesMonotone'(g: Graph, p: set<Id>, p': set<Id>, a: Id, b: Id)
    requires p <= p' && Hits(g, p, a, b)
    ensures Hits(g, p', a, b)
  {
    if Reaches(g, p, a, b) { ReachesMonotone(g, p, p', a, b); }
  }

  /** `b` depends on `t` and on `a`, `a` depends on `t` and is listed first:
      blocking `a` blocks `b`, and `t` then holds a stale row for `b`. */
  lemma TriangleConflicts(t: Id, a: Id, b: Id)
    requires t != a && a != b && t != b
    ensures Walk(map[t := [a, b], a := [b], b := []], t, {a, b}) == Conflict(b)
  {
    var g: Graph := map[t := [a, b], a := [b], b := []];
    assert Picked([a, b], {a, b}) == [a, b] by {
      assert [a, b][1..] == [b] && [b][1..] == [];
    }
    assert {a, b} - {a} == {b} && {b} - {b} == {};
    assert [b][1..] == [];
    assert Picked([b], {b}) == [b];
    assert Walk(g, b, {}) == Done([], {});
    assert WalkRows(g, a, [b], {b}) == Done([(a, b)], {}) by {
      assert WalkRows(g, a, [], {}) == Done([], {});
      assert [(a, b)] + [] + [] == [(a, b)];
    }
    assert Walk(g, a, {b}).left == {};
    assert [a, b][1..] == [b];
    assert WalkRows(g, t, [b], {}) == Conflict(b);
  }
}

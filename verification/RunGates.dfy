/**
 The ticket lock that admits runs in submission order, as a state machine.  Each step
 is one stretch of code that holds the condition; threads are scheduled in any order,
 and a wait may also end without a notification.
 */
module RunGates {
  import opened Basics

  type Thread = nat

  datatype Phase = Away | Waiting(ticket: nat, parked: bool) | Inside(ticket: nat)

  /** `arrived` and `admitted` record which thread drew, and was let in with, each ticket. */
  datatype Gate = Gate(next: nat, serving: nat, phase: map<Thread, Phase>, arrived: seq<Thread>, admitted: seq<Thread>)

  datatype Step = Arrive(thread: Thread) | Wake(thread: Thread) | Spurious(thread: Thread) | Leave(thread: Thread)

  const NEW := Gate(0, 0, map[], [], [])

  function PhaseOf(g: Gate, t: Thread): Phase {
    if t in g.phase then g.phase[t] else Away
  }

  /** One test of the wait loop: in, or back to waiting. */
  function Test(g: Gate, t: Thread, ticket: nat): Gate {
    if ticket == g.serving then g.(phase := g.phase[t := Inside(ticket)], admitted := g.admitted + [t])
    else g.(phase := g.phase[t := Waiting(ticket, true)])
  }

  function Notified(p: Phase): Phase {
    if p.Waiting? then p.(parked := false) else p
  }

  function Enabled(g: Gate, s: Step): bool {
    match s
    case Arrive(t) => PhaseOf(g, t).Away?
    case Wake(t) => PhaseOf(g, t).Waiting? && !PhaseOf(g, t).parked
    case Spurious(t) => PhaseOf(g, t).Waiting?
    case Leave(t) => PhaseOf(g, t).Inside?
  }

  function Do(g: Gate, s: Step): Gate
    requires Enabled(g, s)
  {
    match s
    case Arrive(t) =>
      Test(g.(next := g.next + 1, arrived := g.arrived + [t]), t, g.next)
    case Wake(t) => Test(g, t, PhaseOf(g, t).ticket)
    case Spurious(t) => g.(phase := g.phase[t := PhaseOf(g, t).(parked := false)])
    case Leave(t) =>
      var left := g.phase[t := Away];
      g.(serving := g.serving + 1, phase := map u | u in left :: Notified(left[u]))
  }

  /** The ticket a thread holds. */
  function Ticket(g: Gate, t: Thread): Option<nat> {
    match PhaseOf(g, t)
    case Away => None
    case Waiting(n, _) => Some(n)
    case Inside(n) => Some(n)
  }

  ghost predicate SomeoneInside(g: Gate) {
    exists t :: PhaseOf(g, t).Inside?
  }

  /**
   Live tickets are exactly those from `serving` up to `next`, each held by the thread
   that drew it; the thread inside holds `serving`; a parked thread does not; and the
   threads let in so far are the first to have arrived, in order.
   */
  ghost predicate Sound(g: Gate) {
    && g.serving <= g.next == |g.arrived|
    && (forall t: Thread, n: nat :: Ticket(g, t) == Some(n) ==> g.serving <= n < g.next && g.arrived[n] == t)
    && (forall n: nat :: g.serving <= n < g.next ==> Ticket(g, g.arrived[n]) == Some(n))
    && (forall t: Thread :: PhaseOf(g, t).Inside? ==> PhaseOf(g, t).ticket == g.serving)
    && (forall t: Thread :: PhaseOf(g, t).Waiting? && PhaseOf(g, t).parked ==> PhaseOf(g, t).ticket != g.serving)
    && g.serving <= |g.admitted| <= g.serving + 1 && |g.admitted| <= g.next
    && g.admitted == g.arrived[..|g.admitted|]
    && (|g.admitted| == g.serving + 1 <==> g.serving < g.next && PhaseOf(g, g.arrived[g.serving]).Inside?)
  }

  lemma NewSound()
    ensures Sound(NEW)
  {}

  lemma TestSound(g: Gate, t: Thread, n: nat)
    requires g.serving <= n < g.next == |g.arrived| && g.arrived[n] == t && !PhaseOf(g, t).Inside?
    requires forall u: Thread, m: nat :: u != t && Ticket(g, u) == Some(m) ==> g.serving <= m < g.next && g.arrived[m] == u
    requires forall m: nat :: g.serving <= m < g.next && m != n ==> g.arrived[m] != t && Ticket(g, g.arrived[m]) == Some(m)
    requires forall u: Thread :: PhaseOf(g, u).Inside? ==> PhaseOf(g, u).ticket == g.serving
    requires forall u: Thread :: u != t && PhaseOf(g, u).Waiting? && PhaseOf(g, u).parked ==> PhaseOf(g, u).ticket != g.serving
    requires g.serving <= |g.admitted| <= g.serving + 1 && |g.admitted| <= g.next && g.admitted == g.arrived[..|g.admitted|]
    requires |g.admitted| == g.serving + 1 <==> g.serving < g.next && PhaseOf(g, g.arrived[g.serving]).Inside?
    ensures Sound(Test(g, t, n))
  {
    var g' := Test(g, t, n);
    assert forall u :: u != t ==> PhaseOf(g', u) == PhaseOf(g, u);
    if n == g.serving {
      assert |g.admitted| == g.serving;
      assert g'.admitted == g.arrived[..g.serving + 1];
    } else {
      var first := g.arrived[g.serving];
      assert first != t && PhaseOf(g', first) == PhaseOf(g, first);
      assert g'.admitted == g.admitted;
    }
    assert forall u :: u != t ==> Ticket(g', u) == Ticket(g, u);
    assert Ticket(g', t) == Some(n);
  }

  lemma ArriveSound(g: Gate, t: Thread)
    requires Sound(g) && PhaseOf(g, t).Away?
    ensures Sound(Do(g, Arrive(t)))
  {
    var g' := g.(next := g.next + 1, arrived := g.arrived + [t]);
    assert forall u :: PhaseOf(g', u) == PhaseOf(g, u) && Ticket(g', u) == Ticket(g, u);
    forall m: nat | g'.serving <= m < g'.next && m != g.next
      ensures g'.arrived[m] != t && Ticket(g', g'.arrived[m]) == Some(m)
    {
      assert g'.arrived[m] == g.arrived[m];
    }
    forall u: Thread, m: nat | u != t && Ticket(g', u) == Some(m) ensures g'.serving <= m < g'.next && g'.arrived[m] == u {
      assert g'.arrived[m] == g.arrived[m];
    }
    assert g'.arrived[..|g.admitted|] == g.arrived[..|g.admitted|];
    hide Sound, PhaseOf, Ticket;
    TestSound(g', t, g.next);
  }

  lemma WakeSound(g: Gate, t: Thread)
    requires Sound(g) && PhaseOf(g, t).Waiting?
    ensures Sound(Test(g, t, PhaseOf(g, t).ticket))
  {
    var n := PhaseOf(g, t).ticket;
    assert Ticket(g, t) == Some(n);
    forall m: nat | g.serving <= m < g.next && m != n ensures g.arrived[m] != t {
      assert Ticket(g, g.arrived[m]) == Some(m);
    }
    TestSound(g, t, n);
  }

  lemma SpuriousSound(g: Gate, t: Thread)
    requires Sound(g) && PhaseOf(g, t).Waiting?
    ensures Sound(Do(g, Spurious(t)))
  {
    var g' := Do(g, Spurious(t));
    assert forall u :: Ticket(g', u) == Ticket(g, u) && (PhaseOf(g', u).Inside? <==> PhaseOf(g, u).Inside?);
  }

  lemma OnlyOneInside(g: Gate, t: Thread, u: Thread)
    requires Sound(g) && PhaseOf(g, t).Inside? && PhaseOf(g, u).Inside?
    ensures t == u
  {
    assert Ticket(g, t) == Some(g.serving) && Ticket(g, u) == Some(g.serving);
    assert g.arrived[g.serving] == t && g.arrived[g.serving] == u;
  }

  lemma LeaveSound(g: Gate, t: Thread)
    requires Sound(g) && PhaseOf(g, t).Inside?
    ensures Sound(Do(g, Leave(t)))
  {
    var g' := Do(g, Leave(t));
    assert Ticket(g, t) == Some(g.serving);
    assert forall u :: u != t ==> PhaseOf(g', u) == Notified(PhaseOf(g, u)) && Ticket(g', u) == Ticket(g, u);
    forall u: Thread ensures u != t ==> !PhaseOf(g, u).Inside? { if PhaseOf(g, u).Inside? { OnlyOneInside(g, t, u); } }
    assert forall u :: !PhaseOf(g', u).Inside?;
    assert g.arrived[g.serving] == t;
    forall m: nat | g'.serving <= m < g'.next ensures Ticket(g', g'.arrived[m]) == Some(m) {
      assert Ticket(g, g.arrived[m]) == Some(m);
    }
  }

  lemma StepSound(g: Gate, s: Step)
    requires Sound(g) && Enabled(g, s)
    ensures Sound(Do(g, s))
  {
    hide Sound;
    match s
    case Arrive(t) => ArriveSound(g, t);
    case Wake(t) => WakeSound(g, t);
    case Spurious(t) => SpuriousSound(g, t);
    case Leave(t) => LeaveSound(g, t);
  }

  /** The steps of a run, each enabled when it is taken. */
  ghost predicate Reaches(g: Gate, steps: seq<Step>, g': Gate)
    decreases |steps|
  {
    if steps == [] then g' == g else Enabled(g, steps[0]) && Reaches(Do(g, steps[0]), steps[1..], g')
  }

  lemma {:induction false} RunSound(g: Gate, steps: seq<Step>, g': Gate)
    requires Sound(g) && Reaches(g, steps, g')
    ensures Sound(g')
    decreases |steps|
  {
    if steps != [] {
      StepSound(g, steps[0]);
      RunSound(Do(g, steps[0]), steps[1..], g');
    }
  }

  /** In every reachable state at most one thread is inside, the threads let in are the
      first to have arrived and none was skipped, and no ticket in between is unheld. */
  lemma MutualExclusionInOrder(steps: seq<Step>, g: Gate, t: Thread, u: Thread)
    requires Reaches(NEW, steps, g)
    ensures PhaseOf(g, t).Inside? && PhaseOf(g, u).Inside? ==> t == u
    ensures g.admitted <= g.arrived && |g.admitted| == g.serving + (if SomeoneInside(g) then 1 else 0)
    ensures forall n: nat :: (exists v :: Ticket(g, v) == Some(n)) <==> g.serving <= n < g.next
  {
    NewSound();
    RunSound(NEW, steps, g);
    forall v | PhaseOf(g, v).Inside? ensures g.serving < g.next && g.arrived[g.serving] == v {
      assert Ticket(g, v) == Some(g.serving);
    }
    forall n: nat ensures (exists v :: Ticket(g, v) == Some(n)) <==> g.serving <= n < g.next {
      if g.serving <= n < g.next { assert Ticket(g, g.arrived[n]) == Some(n); }
    }
  }

  /** No wake-up is lost: when some thread waits, one is inside, or the thread whose turn
      it is can go in with its next step. */
  lemma WaitersMakeProgress(steps: seq<Step>, g: Gate, t: Thread)
    requires Reaches(NEW, steps, g) && PhaseOf(g, t).Waiting?
    ensures g.serving < |g.arrived|
    ensures var first := g.arrived[g.serving];
      SomeoneInside(g) || (Enabled(g, Wake(first)) && PhaseOf(Do(g, Wake(first)), first).Inside?)
  {
    NewSound();
    RunSound(NEW, steps, g);
    assert Ticket(g, t) == Some(PhaseOf(g, t).ticket);
    var first := g.arrived[g.serving];
    assert Ticket(g, first) == Some(g.serving);
  }
}

/**
 The bounded event channel of one run, as a state machine: one producer, one consumer,
 and any number of cancellations.  Each step is one test of a flag or one operation on
 the queue; a `put` whose timeout runs out is a step that finds the queue full.
 */
module EventChannel {
  import opened Basics

  datatype Item = Event(id: int) | Terminal | End

  /** Where the producer is: between calls, at the head of the put loop, at the `put`
      itself, or about to set `_finished`. */
  datatype Producer = Between | Checking(item: Item) | Trying(item: Item) | Finishing

  /** Where a call of `cancel` is: at its forced `put`, at `get_nowait`, or back. */
  datatype Canceller = Inserting | Dropping | Returned

  datatype Consumer = Reading | Closing | Closed

  /** `published` are the events that `publish` was called with while the channel was open,
      `accepted` the items the producer put, `taken` those the consumer got, and `gone` all
      that left the queue.  The consumer's own call of `cancel` is number 0. */
  datatype Channel = Channel(
    max: int, queue: seq<Item>, cancelled: bool, finished: bool,
    producer: Producer, consumer: Consumer, cancellers: map<nat, Canceller>,
    published: seq<Item>, accepted: seq<Item>, taken: seq<Item>, gone: seq<Item>)

  datatype Step =
    | Publish(id: int) | Finish | Check | Try | SetFinished
    | Get | CloseEarly | Close
    | Cancel(call: nat) | Insert(call: nat) | Drop(call: nat)

  function New(max: int): Channel {
    Channel(max, [], false, false, Between, Reading, map[], [], [], [], [])
  }

  /** A queue with no positive size is unbounded. */
  predicate Full(c: Channel) {
    c.max > 0 && |c.queue| >= c.max
  }

  predicate At(c: Channel, call: nat, s: Canceller) {
    call in c.cancellers && c.cancellers[call] == s
  }

  /** Where the producer goes when its put loop returns. */
  function After(item: Item): Producer {
    if item == Terminal then Finishing else Between
  }

  predicate Enabled(c: Channel, s: Step) {
    match s
    case Publish(_) => c.producer == Between
    case Finish => c.producer == Between
    case Check => c.producer.Checking?
    case Try => c.producer.Trying?
    case SetFinished => c.producer == Finishing
    case Get => c.consumer == Reading && c.queue != []
    case CloseEarly => c.consumer == Reading
    case Close => c.consumer == Closing && 0 !in c.cancellers
    case Cancel(n) => n > 0 && n !in c.cancellers
    case Insert(n) => At(c, n, Inserting)
    case Drop(n) => At(c, n, Dropping)
  }

  function Do(c: Channel, s: Step): Channel
    requires Enabled(c, s)
  {
    match s
    case Publish(id) =>
      if c.cancelled || c.finished then c
      else c.(published := c.published + [Event(id)], producer := Checking(Event(id)))
    case Finish =>
      if c.finished then c else if c.cancelled then c.(producer := Finishing) else c.(producer := Checking(Terminal))
    case Check =>
      if c.cancelled then c.(producer := After(c.producer.item)) else c.(producer := Trying(c.producer.item))
    case Try =>
      var item := c.producer.item;
      if Full(c) then c.(producer := Checking(item))
      else c.(queue := c.queue + [item], accepted := c.accepted + [item], producer := After(item))
    case SetFinished => c.(finished := true, producer := Checking(End))
    case Get =>
      var item := c.queue[0];
      c.(queue := c.queue[1..], taken := c.taken + [item], gone := c.gone + [item],
         consumer := if item == End then Closing else Reading)
    case CloseEarly => c.(consumer := Closing)
    case Close => c.(consumer := Closed, cancelled := true, cancellers := c.cancellers[0 := Inserting])
    case Cancel(n) => c.(cancelled := true, cancellers := c.cancellers[n := Inserting])
    case Insert(n) =>
      if Full(c) then c.(cancellers := c.cancellers[n := Dropping])
      else c.(queue := c.queue + [End], cancellers := c.cancellers[n := Returned])
    case Drop(n) =>
      if c.queue == [] then c.(cancellers := c.cancellers[n := Inserting])
      else c.(queue := c.queue[1..], gone := c.gone + [c.queue[0]], cancellers := c.cancellers[n := Inserting])
  }

  // ----- What holds throughout -----

  predicate EventsOnly(s: seq<Item>) {
    forall i :: 0 <= i < |s| ==> s[i].Event?
  }

  /** The calls of `publish` and `finish` that have been made leave this much to put. */
  predicate Open(c: Channel) {
    !c.finished && (c.producer == Between || ((c.producer.Checking? || c.producer.Trying?) && c.producer.item != End))
  }

  predicate Ending(c: Channel) {
    (!c.finished && c.producer == Finishing) || (c.finished && (c.producer == Checking(End) || c.producer == Trying(End)))
  }

  predicate Over(c: Channel) {
    c.finished && c.producer == Between
  }

  /** The producer has an event in hand that it has not put yet. */
  predicate Carries(p: Producer) {
    (p.Checking? || p.Trying?) && p.item.Event?
  }

  /** These events, then at most one terminal event, then at most one END; neither is missing
      at its time unless the channel was cancelled. */
  predicate Shape(c: Channel, events: seq<Item>) {
    && (Open(c) ==> c.accepted == events)
    && (Ending(c) ==> c.accepted == events + [Terminal] || (c.cancelled && c.accepted == events))
    && (Over(c) ==> c.accepted == events + [Terminal, End]
                    || (c.cancelled && c.accepted in {events, events + [Terminal], events + [End]}))
  }

  function Front(s: seq<Item>): seq<Item> {
    if s == [] then [] else s[..|s| - 1]
  }

  /** What was published has been put, but for the event in hand, and but for the last one if a
      cancellation came before it was put. */
  predicate InShape(c: Channel) {
    && (Open(c) || Ending(c) || Over(c)) && EventsOnly(c.published)
    && (Carries(c.producer) ==> c.published != [] && Last(c.published) == c.producer.item)
    && (|| Shape(c, if Carries(c.producer) then Front(c.published) else c.published)
        || (c.cancelled && !Carries(c.producer) && Shape(c, Front(c.published))))
  }

  function NonEnd(s: seq<Item>): seq<Item> {
    if s == [] then [] else NonEnd(s[..|s| - 1]) + (if Last(s) == End then [] else [Last(s)])
  }

  /** `a` is `b` with some items left out. */
  ghost predicate Within(a: seq<Item>, b: seq<Item>)
    decreases |b|
  {
    if b == [] then a == []
    else Within(a, b[..|b| - 1]) || (a != [] && Last(a) == Last(b) && Within(a[..|a| - 1], b[..|b| - 1]))
  }

  ghost predicate Active(c: Channel) {
    exists n :: At(c, n, Inserting) || At(c, n, Dropping)
  }

  ghost predicate Sound(c: Channel) {
    && (c.max > 0 ==> |c.queue| <= c.max)
    && (!c.cancelled ==> c.cancellers == map[] && c.taken + c.queue == c.accepted && c.gone == c.taken)
    && NonEnd(c.gone) + NonEnd(c.queue) == NonEnd(c.accepted)
    && Within(c.taken, c.gone)
    && (c.consumer == Reading ==> End !in c.taken)
    && (0 in c.cancellers <==> c.consumer == Closed)
    && (c.cancelled ==> Active(c) || End in c.queue || c.consumer != Reading)
    && InShape(c)
  }

  lemma NewSound(max: int)
    ensures Sound(New(max))
  {
    assert EventsOnly([]);
    assert New(max).taken + New(max).queue == [];
  }

  lemma NonEndOne(s: seq<Item>, x: Item)
    ensures NonEnd(s + [x]) == NonEnd(s) + (if x == End then [] else [x])
  {
    assert (s + [x])[..|s|] == s;
  }

  lemma {:induction false} NonEndHead(s: seq<Item>)
    requires s != []
    ensures NonEnd(s) == (if s[0] == End then [] else [s[0]]) + NonEnd(s[1..])
  {
    assert NonEnd([]) == [];
    hide NonEnd;
    var front, last := s[..|s| - 1], Last(s);
    assert s == front + [last];
    NonEndOne(front, last);
    if front == [] {
      assert s[1..] == [];
    } else {
      NonEndHead(front);
      assert s[1..] == front[1..] + [last];
      NonEndOne(front[1..], last);
      Appended(if s[0] == End then [] else [s[0]], NonEnd(front[1..]), if last == End then [] else [last]);
    }
  }

  lemma {:induction false} WithinSelf(a: seq<Item>)
    ensures Within(a, a)
  {
    if a != [] { WithinSelf(a[..|a| - 1]); }
  }

  lemma WithinOne(a: seq<Item>, b: seq<Item>, x: Item)
    requires Within(a, b)
    ensures Within(a, b + [x]) && Within(a + [x], b + [x])
  {
    assert (b + [x])[..|b|] == b && (a + [x])[..|a|] == a;
  }

  // ----- Steps of the producer -----

  lemma SameActive(c: Channel, c': Channel)
    requires c'.cancellers == c.cancellers
    ensures Active(c') <==> Active(c)
  {
    assert forall n, s :: At(c', n, s) <==> At(c, n, s);
  }

  lemma Appended(a: seq<Item>, b: seq<Item>, x: seq<Item>)
    ensures a + (b + x) == (a + b) + x
  {}

  lemma PutSound(c: Channel)
    requires Sound(c) && c.producer.Trying? && !Full(c)
    ensures Sound(Do(c, Try))
  {
    hide NonEnd, Within, InShape, Active;
    var item, c' := c.producer.item, Do(c, Try);
    NonEndOne(c.queue, item);
    NonEndOne(c.accepted, item);
    Appended(c.taken, c.queue, [item]);
    Appended(NonEnd(c.gone), NonEnd(c.queue), if item == End then [] else [item]);
    SameActive(c, c');
    PutInShape(c);
  }

  lemma PutInShape(c: Channel)
    requires InShape(c) && c.producer.Trying? && !Full(c)
    ensures InShape(Do(c, Try))
  {
    var p := c.published;
    assert p != [] ==> p == Front(p) + [Last(p)];
    assert forall s: seq<Item> :: s + [Terminal, End] == (s + [Terminal]) + [End];
  }

  /** A step of the producer that only moves it on. */
  lemma FlagSound(c: Channel, s: Step)
    requires Sound(c) && Enabled(c, s) && (s.Publish? || s == Finish || s == Check || s == SetFinished || (s == Try && Full(c)))
    ensures Sound(Do(c, s))
  {
    var c' := Do(c, s);
    assert Active(c') <==> Active(c) by { assert forall n, st :: At(c', n, st) <==> At(c, n, st); }
    hide NonEnd, Within, Active;
    FlagInShape(c, s);
    hide InShape;
  }

  lemma FlagInShape(c: Channel, s: Step)
    requires InShape(c) && Enabled(c, s) && (s.Publish? || s == Finish || s == Check || s == SetFinished || (s == Try && Full(c)))
    ensures InShape(Do(c, s))
  {
    if s.Publish? { assert Front(c.published + [Event(s.id)]) == c.published; }
  }

  // ----- Steps of the consumer and of cancellations -----

  lemma SameShape(c: Channel, c': Channel)
    requires InShape(c) && c'.accepted == c.accepted && c'.producer == c.producer && c'.finished == c.finished
    requires c'.published == c.published
    requires c.cancelled ==> c'.cancelled
    ensures InShape(c')
  {}

  lemma HeadMoved(a: seq<Item>, q: seq<Item>)
    requires q != []
    ensures (a + [q[0]]) + q[1..] == a + q
    ensures NonEnd(a + [q[0]]) + NonEnd(q[1..]) == NonEnd(a) + NonEnd(q)
  {
    hide NonEnd;
    NonEndHead(q);
    NonEndOne(a, q[0]);
    var one := if q[0] == End then [] else [q[0]];
    Appended(NonEnd(a), one, NonEnd(q[1..]));
    assert q == [q[0]] + q[1..];
    Appended(a, [q[0]], q[1..]);
  }

  lemma GetSound(c: Channel)
    requires Sound(c) && Enabled(c, Get)
    ensures Sound(Do(c, Get))
  {
    hide NonEnd, Within, InShape, Active;
    var item, c' := c.queue[0], Do(c, Get);
    HeadMoved(c.taken, c.queue);
    HeadMoved(c.gone, c.queue);
    WithinOne(c.taken, c.gone, item);
    SameActive(c, c');
    SameShape(c, c');
    assert c.queue == [item] + c.queue[1..];
    assert item != End && End in c.queue ==> End in c'.queue;
  }

  lemma CloseSound(c: Channel, s: Step)
    requires Sound(c) && Enabled(c, s) && (s == CloseEarly || s == Close || s.Cancel?)
    ensures Sound(Do(c, s))
  {
    hide NonEnd, Within, InShape, Active, EventsOnly;
    var c' := Do(c, s);
    SameShape(c, c');
    if s == CloseEarly {
      SameActive(c, c');
    } else {
      NowActive(c', if s == Close then 0 else s.call);
    }
  }

  lemma NowActive(c: Channel, n: nat)
    requires At(c, n, Inserting)
    ensures Active(c)
  {}

  lemma InsertSound(c: Channel, n: nat)
    requires Sound(c) && Enabled(c, Insert(n))
    ensures Sound(Do(c, Insert(n)))
  {
    var c' := Do(c, Insert(n));
    SameShape(c, c');
    NonEndOne(c.queue, End);
    assert NonEnd(c'.queue) == NonEnd(c.queue);
    hide NonEnd, Within, InShape;
    assert c.cancelled;
    if Full(c) { assert At(c', n, Dropping); } else { assert End in c'.queue; }
  }

  lemma DropSound(c: Channel, n: nat)
    requires Sound(c) && Enabled(c, Drop(n))
    ensures Sound(Do(c, Drop(n)))
  {
    hide NonEnd, Within, InShape;
    var c' := Do(c, Drop(n));
    SameShape(c, c');
    if c.queue != [] {
      HeadMoved(c.gone, c.queue);
      WithinOne(c.taken, c.gone, c.queue[0]);
    }
    assert At(c', n, Inserting);
    assert c.cancelled;
  }

  lemma StepSound(c: Channel, s: Step)
    requires Sound(c) && Enabled(c, s)
    ensures Sound(Do(c, s))
  {
    hide Sound;
    match s
    case Try => if Full(c) { FlagSound(c, s); } else { PutSound(c); }
    case Get => GetSound(c);
    case CloseEarly => CloseSound(c, s);
    case Close => CloseSound(c, s);
    case Cancel(_) => CloseSound(c, s);
    case Insert(n) => InsertSound(c, n);
    case Drop(n) => DropSound(c, n);
    case _ => FlagSound(c, s);
  }

  ghost predicate Reaches(c: Channel, steps: seq<Step>, c': Channel)
    decreases |steps|
  {
    if steps == [] then c' == c else Enabled(c, steps[0]) && Reaches(Do(c, steps[0]), steps[1..], c')
  }

  lemma {:induction false} RunSound(c: Channel, steps: seq<Step>, c': Channel)
    requires Sound(c) && Reaches(c, steps, c')
    ensures Sound(c')
    decreases |steps|
  {
    hide Sound;
    if steps != [] {
      StepSound(c, steps[0]);
      RunSound(Do(c, steps[0]), steps[1..], c');
    }
  }

  // ----- What that means for callers -----

  function EventsIn(s: seq<Item>): seq<Item> {
    if s == [] then [] else EventsIn(s[..|s| - 1]) + (if Last(s).Event? then [Last(s)] else [])
  }

  /** The event in hand, if there is one. */
  function Held(p: Producer): seq<Item> {
    if Carries(p) then [p.item] else []
  }

  lemma EventsInOne(s: seq<Item>, x: Item)
    ensures EventsIn(s + [x]) == EventsIn(s) + (if x.Event? then [x] else [])
  {
    assert (s + [x])[..|s|] == s;
  }

  lemma FrontAndLast(s: seq<Item>)
    requires s != []
    ensures s == Front(s) + [Last(s)]
  {}

  lemma {:induction false} EventsInOnly(events: seq<Item>)
    requires EventsOnly(events)
    ensures EventsIn(events) == events
  {
    if events != [] {
      FrontAndLast(events);
      EventsInOnly(Front(events));
      EventsInOne(Front(events), Last(events));
      hide EventsIn;
    }
  }

  lemma EventsInEnded(events: seq<Item>)
    requires EventsOnly(events)
    ensures EventsIn(events + [Terminal]) == events && EventsIn(events + [End]) == events
    ensures EventsIn(events + [Terminal, End]) == events
  {
    EventsInOnly(events);
    EventsInOne(events, Terminal);
    EventsInOne(events, End);
    EventsInOne(events + [Terminal], End);
    hide EventsIn;
    assert events + [Terminal, End] == (events + [Terminal]) + [End];
    assert events + [] == events;
  }

  lemma ShapeEvents(c: Channel, events: seq<Item>)
    requires Shape(c, events) && EventsOnly(events) && (Open(c) || Ending(c) || Over(c))
    ensures EventsIn(c.accepted) == events
    ensures !c.cancelled && Over(c) ==> c.accepted == events + [Terminal, End]
  {
    EventsInOnly(events);
    EventsInEnded(events);
    hide EventsIn;
  }

  lemma InShapeEvents(c: Channel)
    requires InShape(c)
    ensures !c.cancelled ==> EventsIn(c.accepted) + Held(c.producer) == c.published
    ensures !c.cancelled && Over(c) ==> c.accepted == c.published + [Terminal, End]
    ensures EventsIn(c.accepted) in {c.published, Front(c.published)}
  {
    var p := c.published;
    if p != [] { FrontAndLast(p); }
    assert EventsOnly(Front(p));
    assert Over(c) ==> !Carries(c.producer);
    hide EventsIn, Shape, Open, Ending, Over;
    if Shape(c, p) { ShapeEvents(c, p); }
    if Shape(c, Front(p)) { ShapeEvents(c, Front(p)); }
    assert p + [] == p;
  }

  /** Until it is cancelled the channel is a FIFO that never holds more than its size and loses
      nothing: the events consumed, followed by those queued and the one the producer has in
      hand, are exactly those published; and once the producer is through, everything is there,
      the terminal event and END last.  After a cancellation at most the last event published
      was not put. */
  lemma RefinesFifo(max: int, steps: seq<Step>, c: Channel)
    requires Reaches(New(max), steps, c)
    ensures c.max > 0 ==> |c.queue| <= c.max
    ensures !c.cancelled ==> c.taken + c.queue == c.accepted
    ensures !c.cancelled ==> EventsIn(c.taken + c.queue) + Held(c.producer) == c.published
    ensures !c.cancelled && Over(c) ==> c.taken + c.queue == c.published + [Terminal, End]
    ensures EventsIn(c.accepted) in {c.published, Front(c.published)}
  {
    NewSound(max);
    RunSound(New(max), steps, c);
    InShapeEvents(c);
    hide InShape, Within, NonEnd, Active;
  }

  /** The events of the calls of `publish` in a run that found the channel open. */
  function Publications(c: Channel, steps: seq<Step>): seq<Item>
    decreases |steps|
  {
    if steps == [] || !Enabled(c, steps[0]) then []
    else (if steps[0].Publish? && !c.cancelled && !c.finished then [Event(steps[0].id)] else [])
         + Publications(Do(c, steps[0]), steps[1..])
  }

  /** `published` is what it says: one event for each call of `publish` that found the channel
      neither cancelled nor finished, in order. */
  lemma {:induction false} PublishedExactly(c: Channel, steps: seq<Step>, c': Channel)
    requires Reaches(c, steps, c')
    ensures c'.published == c.published + Publications(c, steps)
    decreases |steps|
  {
    if steps == [] {
      assert c.published + [] == c.published;
    } else {
      var mid := Do(c, steps[0]);
      PublishedExactly(mid, steps[1..], c');
      var one := if steps[0].Publish? && !c.cancelled && !c.finished then [Event(steps[0].id)] else [];
      assert mid.published == c.published + one;
      hide Do, Enabled, Reaches;
      Appended(c.published, one, Publications(mid, steps[1..]));
    }
  }

  /** A call of `finish` is under way, or one has ended. */
  predicate FinishBegan(c: Channel) {
    c.finished || c.producer in {Checking(Terminal), Trying(Terminal), Finishing}
  }

  /** A call of `finish` does not return before the channel is finished. */
  lemma {:induction false} FinishFinishes(c: Channel, steps: seq<Step>, c': Channel)
    requires Enabled(c, Finish) && Reaches(Do(c, Finish), steps, c')
    ensures c'.producer == Between ==> c'.finished
  {
    FinishGoesOn(Do(c, Finish), steps, c');
  }

  lemma {:induction false} FinishGoesOn(c: Channel, steps: seq<Step>, c': Channel)
    requires FinishBegan(c) && Reaches(c, steps, c')
    ensures FinishBegan(c')
    decreases |steps|
  {
    if steps != [] {
      assert FinishBegan(Do(c, steps[0]));
      hide Do, Enabled, FinishBegan;
      FinishGoesOn(Do(c, steps[0]), steps[1..], c');
    }
  }

  /** In every state, cancelled or not, what the consumer got is what was accepted, in
      order, with some items left out and END apart. */
  lemma ConsumedInOrder(max: int, steps: seq<Step>, c: Channel)
    requires Reaches(New(max), steps, c)
    ensures Within(c.taken, c.gone) && NonEnd(c.gone) + NonEnd(c.queue) == NonEnd(c.accepted)
  {
    NewSound(max);
    RunSound(New(max), steps, c);
    hide InShape, Within, NonEnd, Active;
  }

  /** The producer puts the published events, then the terminal event once, then END once;
      neither comes early, and a cancellation can only leave them out. */
  lemma TerminalOnceBeforeEnd(max: int, steps: seq<Step>, c: Channel)
    requires Reaches(New(max), steps, c)
    ensures exists events :: events in {c.published, Front(c.published)} && EventsOnly(events) && Shape(c, events)
    ensures !c.cancelled && Ending(c) ==> c.accepted == c.published + [Terminal]
    ensures !c.cancelled && Over(c) ==> c.accepted == c.published + [Terminal, End]
    ensures Open(c) || Ending(c) || Over(c)
  {
    NewSound(max);
    RunSound(New(max), steps, c);
    ShapeOnce(c);
    hide InShape, Within, NonEnd, Active, Shape;
  }

  lemma ShapeOnce(c: Channel)
    requires InShape(c)
    ensures exists events :: events in {c.published, Front(c.published)} && EventsOnly(events) && Shape(c, events)
    ensures !c.cancelled && Ending(c) ==> c.accepted == c.published + [Terminal]
    ensures !c.cancelled && Over(c) ==> c.accepted == c.published + [Terminal, End]
    ensures Open(c) || Ending(c) || Over(c)
  {
    assert EventsOnly(Front(c.published)) && EventsOnly(c.published);
  }

  /** The consumer is never left waiting for nothing: on an empty queue the producer is
      not through, or a cancellation is still about to insert END. */
  lemma ConsumerNotStranded(max: int, steps: seq<Step>, c: Channel)
    requires Reaches(New(max), steps, c) && c.consumer == Reading && c.queue == []
    ensures !Over(c) || Active(c)
  {
    NewSound(max);
    RunSound(New(max), steps, c);
    hide Within, NonEnd, Active;
    OverHasEnd(c);
    hide InShape;
    assert c.taken + [] == c.taken;
  }

  lemma OverHasEnd(c: Channel)
    requires InShape(c)
    ensures Over(c) && !c.cancelled ==> End in c.accepted
  {
    if Over(c) && !c.cancelled {
      var n := |c.accepted| - 1;
      assert n >= 0 && c.accepted[n] == End;
    }
  }

  // ----- After a cancellation every loop ends -----

  /** How much of its call the producer still has ahead once the channel is cancelled. */
  function Ahead(p: Producer): nat {
    match p
    case Between => 0
    case Checking(item) => if item == Terminal then 4 else 1
    case Trying(item) => if item == Terminal then 5 else 2
    case Finishing => 3
  }

  function Calls(c: Channel, s: Canceller): set<nat> {
    set n | n in c.cancellers && c.cancellers[n] == s
  }

  /** The puts that can still happen on a cancelled channel. */
  function PutsLeft(c: Channel): nat {
    |Calls(c, Inserting)| + |Calls(c, Dropping)| + (if c.producer.Trying? then 1 else 0)
  }

  /** The insertions that must find room before the next put. */
  function Retries(c: Channel): nat {
    if Full(c) then |Calls(c, Inserting)| else |Calls(c, Dropping)|
  }

  /** The first difference decides: fewer puts left, or room where there was none, or fewer retries. */
  predicate Nearer(c: Channel, c': Channel) {
    || PutsLeft(c') < PutsLeft(c)
    || (PutsLeft(c') == PutsLeft(c)
        && ((Full(c) && !Full(c')) || ((Full(c) <==> Full(c')) && Retries(c') < Retries(c))))
  }

  predicate NoFarther(c: Channel, c': Channel) {
    Nearer(c, c') || (PutsLeft(c') == PutsLeft(c) && (Full(c) <==> Full(c')) && Retries(c') == Retries(c))
  }

  lemma CallMoved(c: Channel, c': Channel, n: nat, s: Canceller, s': Canceller)
    requires At(c, n, s) && s != s' && c'.cancellers == c.cancellers[n := s']
    ensures forall st :: |Calls(c', st)| == |Calls(c, st)| - (if st == s then 1 else 0) + (if st == s' then 1 else 0)
  {
    forall st
      ensures |Calls(c', st)| == |Calls(c, st)| - (if st == s then 1 else 0) + (if st == s' then 1 else 0)
    {
      if st == s {
        assert Calls(c', st) == Calls(c, st) - {n} && n in Calls(c, st);
      } else if st == s' {
        assert Calls(c', st) == Calls(c, st) + {n} && n !in Calls(c, st);
      } else {
        assert Calls(c', st) == Calls(c, st);
      }
    }
  }

  /** On a cancelled channel every step of a forced insertion brings all of them nearer
      to their end, whatever the other threads did in between ... */
  lemma InsertionAdvances(c: Channel, s: Step)
    requires Sound(c) && Enabled(c, s) && (s.Insert? || s.Drop?)
    ensures Nearer(c, Do(c, s))
  {
    hide Calls, InShape, Within, NonEnd, Active;
    assert c.max > 0 ==> |c.queue| <= c.max;
    hide Sound;
    var c' := Do(c, s);
    if s.Insert? {
      CallMoved(c, c', s.call, Inserting, if Full(c) then Dropping else Returned);
    } else {
      CallMoved(c, c', s.call, Dropping, Inserting);
    }
  }

  /** ... and no step of the producer or the consumer takes them farther away, unless it
      starts another cancellation. */
  lemma OthersDoNotDelay(c: Channel, s: Step)
    requires c.cancelled && Enabled(c, s) && !s.Insert? && !s.Drop? && !s.Cancel? && s != Close
    ensures NoFarther(c, Do(c, s))
  {
    var c' := Do(c, s);
    assert forall st :: Calls(c', st) == Calls(c, st);
    hide Calls;
  }

  /** The order of `Nearer` as a number, for channels with fewer than `b` puts left. */
  function Distance(c: Channel, b: nat): nat {
    PutsLeft(c) * (2 * b) + (if Full(c) then b else 0) + Retries(c)
  }

  lemma NearerIsLess(c: Channel, c': Channel, b: nat)
    requires Nearer(c, c') && PutsLeft(c) < b
    ensures Distance(c', b) < Distance(c, b)
  {
    RetriesWithin(c');
    hide PutsLeft, Retries, Full;
    if PutsLeft(c') < PutsLeft(c) {
      assert PutsLeft(c') * (2 * b) + 2 * b <= PutsLeft(c) * (2 * b) by { Products(PutsLeft(c'), PutsLeft(c), 2 * b); }
    }
  }

  lemma {:induction false} Products(m: nat, n: nat, k: nat)
    requires m < n
    ensures m * k + k <= n * k
    decreases n
  {
    if m + 1 < n { Products(m, n - 1, k); }
    assert n * k == (n - 1) * k + k;
  }

  lemma RetriesWithin(c: Channel)
    ensures Retries(c) <= PutsLeft(c)
  {}

  predicate Inserts(s: Step) {
    s.Insert? || s.Drop?
  }

  /** How many steps of a run belong to forced insertions. */
  function Insertions(steps: seq<Step>): nat {
    if steps == [] then 0 else (if Inserts(steps[0]) then 1 else 0) + Insertions(steps[1..])
  }

  /** No step starts another cancellation. */
  predicate NoneCancels(steps: seq<Step>) {
    forall i :: 0 <= i < |steps| ==> !steps[i].Cancel? && steps[i] != Close
  }

  lemma CancelledStays(c: Channel, s: Step)
    requires c.cancelled && Enabled(c, s)
    ensures Do(c, s).cancelled
  {}

  lemma StepDistance(c: Channel, s: Step, b: nat)
    requires Sound(c) && c.cancelled && Enabled(c, s) && !s.Cancel? && s != Close && PutsLeft(c) < b
    ensures PutsLeft(Do(c, s)) < b
    ensures Distance(Do(c, s), b) + (if Inserts(s) then 1 else 0) <= Distance(c, b)
  {
    if Inserts(s) { InsertionAdvances(c, s); } else { OthersDoNotDelay(c, s); }
    hide Sound, Do, Enabled, PutsLeft, Retries, Full;
    if Nearer(c, Do(c, s)) { NearerIsLess(c, Do(c, s), b); }
  }

  lemma {:induction false} InsertionsWithin(c: Channel, steps: seq<Step>, c': Channel, b: nat)
    requires Sound(c) && c.cancelled && Reaches(c, steps, c') && NoneCancels(steps) && PutsLeft(c) < b
    ensures Insertions(steps) + Distance(c', b) <= Distance(c, b)
    decreases |steps|
  {
    hide Sound, Enabled, Do, Distance, PutsLeft, Inserts;
    if steps != [] {
      assert steps[0] == steps[0] && !steps[0].Cancel? && steps[0] != Close;
      assert NoneCancels(steps[1..]);
      StepDistance(c, steps[0], b);
      StepSound(c, steps[0]);
      CancelledStays(c, steps[0]);
      InsertionsWithin(Do(c, steps[0]), steps[1..], c', b);
    }
  }

  /** Read off the cancelled channel: no more steps of forced insertions than this can follow. */
  function MostInsertions(c: Channel): nat {
    Distance(c, PutsLeft(c) + 1)
  }

  /** On a cancelled channel every forced insertion of END ends: whatever is scheduled, a run in
      which nobody cancels again takes a bounded number of insertion steps, and an insertion
      that has not returned can always take its next one. */
  lemma InsertionsEnd(c: Channel, steps: seq<Step>, c': Channel)
    requires Sound(c) && c.cancelled && Reaches(c, steps, c') && NoneCancels(steps)
    ensures Insertions(steps) <= MostInsertions(c)
    ensures forall n :: n in c'.cancellers && c'.cancellers[n] != Returned ==> Enabled(c', Insert(n)) || Enabled(c', Drop(n))
  {
    hide Sound, Reaches, Distance, PutsLeft, Insertions, NoneCancels;
    InsertionsWithin(c, steps, c', PutsLeft(c) + 1);
  }

  predicate Produces(s: Step) {
    s == Check || s == Try || s == SetFinished
  }

  function Productions(steps: seq<Step>): nat {
    if steps == [] then 0 else (if Produces(steps[0]) then 1 else 0) + Productions(steps[1..])
  }

  /** No call of `finish` begins; one of `publish` may, but does nothing any more. */
  predicate NoneFinishes(steps: seq<Step>) {
    forall i :: 0 <= i < |steps| ==> steps[i] != Finish
  }

  lemma StepAhead(c: Channel, s: Step)
    requires c.cancelled && Enabled(c, s) && s != Finish
    ensures Do(c, s).cancelled
    ensures Ahead(Do(c, s).producer) + (if Produces(s) then 1 else 0) <= Ahead(c.producer)
  {}

  lemma {:induction false} ProductionsWithin(c: Channel, steps: seq<Step>, c': Channel)
    requires c.cancelled && Reaches(c, steps, c') && NoneFinishes(steps)
    ensures Productions(steps) + Ahead(c'.producer) <= Ahead(c.producer)
    decreases |steps|
  {
    hide Enabled, Do, Ahead, Produces;
    if steps != [] {
      assert steps[0] == steps[0] && steps[0] != Finish;
      assert NoneFinishes(steps[1..]);
      StepAhead(c, steps[0]);
      ProductionsWithin(Do(c, steps[0]), steps[1..], c');
    }
  }

  /** On a cancelled channel the producer's retry loop ends: within the call it is in, the
      producer takes at most `Ahead` more steps, whatever is scheduled in between. */
  lemma ProducerReturns(c: Channel, steps: seq<Step>, c': Channel)
    requires c.cancelled && Reaches(c, steps, c') && NoneFinishes(steps)
    ensures Productions(steps) <= Ahead(c.producer) <= 5
    ensures Productions(steps) == Ahead(c.producer) ==> c'.producer == Between
  {
    hide Reaches, Productions, NoneFinishes;
    ProductionsWithin(c, steps, c');
  }
}

/** With one worker, events reach the drains in admission order. */
module TransportOrder {
  import opened Keys
  import opened EvictQueue
  import opened Transport

  ghost predicate Increasing(s: seq<Seq>) {
    forall i, j :: 0 <= i < j < |s| ==> s[i] < s[j]
  }

  function One(e: Item, number: NumberOf): seq<Seq> {
    if e in number then [number[e]] else []
  }

  /** Sequences of the admitted events of the queue, in queue order. */
  function Queued(queue: seq<Item>, number: NumberOf): seq<Seq> {
    if queue == [] then [] else One(queue[0], number) + Queued(queue[1..], number)
  }

  function Nums(slots: seq<Slot>): seq<Seq> {
    if slots == [] then []
    else Nums(slots[..|slots| - 1]) + if slots[|slots| - 1].n.Some? then [slots[|slots| - 1].n.value] else []
  }

  /** Sequences handed over, or in the batch that will be. */
  function Ahead(delivered: seq<Slot>, w: Worker): seq<Seq> {
    Nums(delivered) + if w.delivered then [] else Nums(w.batch)
  }

  /** Sequences still to come: the event in hand, then the queue. */
  function Behind(hand: Option<Item>, number: NumberOf, queue: seq<Item>): seq<Seq> {
    (if hand.Some? then One(hand.value, number) else []) + Queued(queue, number)
  }

  /** Everything one worker has delivered and will deliver, in the order it will. */
  function Pipeline(delivered: seq<Slot>, w: Worker, number: NumberOf, queue: seq<Item>): seq<Seq> {
    Ahead(delivered, w) + Behind(w.hand, number, queue)
  }

  /** An event between `put_nowait` and `_admit` has no event behind it in the queue. */
  ghost predicate AdmittingLast(queue: seq<Item>, hand: Option<Item>, admitting: Option<Item>) {
    admitting.Some? ==>
      && (forall i, j :: 0 <= i < j < |queue| && queue[i] == admitting.value ==> queue[j].Control?)
      && (hand == admitting ==> forall j :: 0 <= j < |queue| ==> queue[j].Control?)
  }

  ghost predicate PipelineOk(p: seq<Seq>, admitted: nat) {
    Increasing(p) && forall i :: 0 <= i < |p| ==> p[i] < admitted
  }

  ghost predicate OrderOk(s: State) {
    && |s.workers| == 1
    && PipelineOk(Pipeline(s.delivered, s.workers[0], s.number, s.queue), |s.admitted|)
    && AdmittingLast(s.queue, s.workers[0].hand, s.admitting)
  }

  lemma {:induction false} QueuedSum(a: seq<Item>, b: seq<Item>, number: NumberOf)
    ensures Queued(a + b, number) == Queued(a, number) + Queued(b, number)
  {
    if a == [] {
      assert a + b == b;
    } else {
      assert (a + b)[1..] == a[1..] + b;
      QueuedSum(a[1..], b, number);
    }
  }

  lemma QueuedOne(x: Item, number: NumberOf)
    ensures Queued([x], number) == One(x, number)
  {
    assert [x][1..] == [];
  }

  lemma {:induction false} NumsSum(a: seq<Slot>, b: seq<Slot>)
    ensures Nums(a + b) == Nums(a) + Nums(b)
  {
    if b == [] {
      assert a + b == a;
    } else {
      var n := |b| - 1;
      assert (a + b)[..|a + b| - 1] == a + b[..n];
      NumsSum(a, b[..n]);
    }
  }

  /** Only the queued events' numbers matter. */
  lemma {:induction false} QueuedDepends(queue: seq<Item>, number: NumberOf, other: NumberOf)
    requires forall x :: x in queue ==> One(x, number) == One(x, other)
    ensures Queued(queue, number) == Queued(queue, other)
  {
    if queue != [] {
      QueuedDepends(queue[1..], number, other);
    }
  }

  lemma {:induction false} QueuedControls(queue: seq<Item>, number: NumberOf)
    requires forall x :: x in queue ==> x !in number
    ensures Queued(queue, number) == []
  {
    if queue != [] {
      QueuedControls(queue[1..], number);
    }
  }

  lemma IncreasingWithout(a: seq<Seq>, x: seq<Seq>, b: seq<Seq>, admitted: nat)
    requires PipelineOk(a + x + b, admitted)
    ensures PipelineOk(a + b, admitted)
  {
    var all := a + x + b;
    assert forall i :: 0 <= i < |a + b| ==> (a + b)[i] == all[if i < |a| then i else i + |x|];
  }

  lemma IncreasingThen(a: seq<Seq>, n: Seq)
    requires PipelineOk(a, n)
    ensures PipelineOk(a + [n], n + 1) && PipelineOk(a, n + 1)
  {
  }

  // ---------------------------------------------------------------- the actions

  /** Events of the queue and of the hand sit there and nowhere else. */
  lemma Located(s: State)
    requires Inv(s) && |s.workers| == 1
    ensures forall x :: x in s.queue && x.Event? ==> x in s.place && s.place[x] == AtQueue
    ensures HoldsEvent(s.workers[0]) ==>
      s.workers[0].hand.value in s.place && s.place[s.workers[0].hand.value] == AtHand(0) && !s.workers[0].delivered
    ensures forall x :: x in s.number ==> x.Event? && x in s.place && s.number[x] < |s.admitted|
    ensures s.admitting.Some? ==> s.admitting.value !in s.number && s.admitting.value in s.place && s.admitting.value.Event?
  {
    assert WorkerOk(0, s.workers[0], s.place, s.number, s.delivered);
    hide WorkersOk, EvictorsOk, HandledOk, UnreservedOk;
  }

  lemma BehindPut(hand: Option<Item>, number: NumberOf, queue: seq<Item>, x: Item)
    requires x !in number
    ensures Behind(hand, number, queue + [x]) == Behind(hand, number, queue)
  {
    QueuedSum(queue, [x], number);
  }

  lemma PutOrder(s: State, event: Item)
    requires Inv(s) && OrderOk(s) && Enabled(s, Put(event))
    ensures OrderOk(DoPut(s, event))
  {
    Located(s);
    hide Inv, PipelineOk, Behind, Ahead;
    BehindPut(s.workers[0].hand, s.number, s.queue, event);
  }

  lemma RequestOrder(s: State, request: Item)
    requires Inv(s) && OrderOk(s) && Enabled(s, PutRequest(request))
    ensures OrderOk(Next(s, PutRequest(request)))
  {
    Located(s);
    hide Inv, PipelineOk, Behind, Ahead;
    BehindPut(s.workers[0].hand, s.number, s.queue, request);
    RequestLast(s.queue, s.workers[0].hand, s.admitting, request);
    hide AdmittingLast;
  }

  lemma RequestLast(queue: seq<Item>, hand: Option<Item>, admitting: Option<Item>, request: Item)
    requires AdmittingLast(queue, hand, admitting) && request.Control?
    requires admitting.Some? ==> admitting.value.Event?
    ensures AdmittingLast(queue + [request], hand, admitting)
  {
  }

  /** Admission appends to the pipeline, unless the event was evicted meanwhile. */
  lemma AdmitOrder(s: State, event: Item)
    requires Inv(s) && OrderOk(s) && s.admitting == Some(event)
    ensures OrderOk(DoAdmit(s, event))
  {
    Located(s);
    hide Inv, PipelineOk, Behind, Ahead;
    var w, n := s.workers[0], |s.admitted|;
    BehindAdmit(s.queue, w.hand, s.number, event, n);
    hide AdmittingLast;
    AppendedOk(Ahead(s.delivered, w), Behind(w.hand, s.number, s.queue), Behind(w.hand, s.number[event := n], s.queue), n);
    AdmittedLast(s.queue, w.hand);
  }

  lemma AdmittedLast(queue: seq<Item>, hand: Option<Item>)
    ensures AdmittingLast(queue, hand, None)
  {
  }

  lemma AppendedOk(ahead: seq<Seq>, before: seq<Seq>, after: seq<Seq>, n: Seq)
    requires PipelineOk(ahead + before, n)
    requires after == before || after == before + [n]
    ensures PipelineOk(ahead + after, n + 1)
  {
    IncreasingThen(ahead + before, n);
    assert ahead + (before + [n]) == ahead + before + [n];
  }

  lemma BehindAdmit(queue: seq<Item>, hand: Option<Item>, number: NumberOf, event: Item, n: Seq)
    requires AdmittingLast(queue, hand, Some(event)) && event !in number && event.Event?
    requires forall x :: x in number ==> x.Event?
    requires !(event in queue && hand == Some(event))
    ensures var before := Behind(hand, number, queue);
      var after := Behind(hand, number[event := n], queue);
      after == before || after == before + [n]
  {
    if event in queue {
      QueuedAdmit(queue, number, event, n);
      hide AdmittingLast, Queued;
    } else if hand == Some(event) {
      QueuedControls(queue, number);
      QueuedControls(queue, number[event := n]);
    } else {
      QueuedDepends(queue, number, number[event := n]);
    }
  }

  lemma QueuedAdmit(queue: seq<Item>, number: NumberOf, e: Item, n: Seq)
    requires e in queue && e !in number && forall i, j :: 0 <= i < j < |queue| && queue[i] == e ==> queue[j].Control?
    requires forall x :: x in number ==> x.Event?
    requires e.Event?
    ensures Queued(queue, number[e := n]) == Queued(queue, number) + [n]
  {
    var k :| 0 <= k < |queue| && queue[k] == e;
    var front, back := queue[..k], queue[k + 1..];
    assert queue == front + [e] + back;
    assert e !in front;
    QueuedControls(back, number);
    QueuedControls(back, number[e := n]);
    QueuedDepends(front, number, number[e := n]);
    QueuedOne(e, number);
    QueuedOne(e, number[e := n]);
    hide Queued;
    QueuedSum(front + [e], back, number);
    QueuedSum(front, [e], number);
    QueuedSum(front + [e], back, number[e := n]);
    QueuedSum(front, [e], number[e := n]);
  }

  lemma GetOrder(s: State)
    requires Inv(s) && OrderOk(s) && Enabled(s, Get(0))
    ensures OrderOk(DoGet(s, 0, s.queue[0]))
  {
    hide Inv, PipelineOk, Ahead;
    GetLast(s.queue, s.admitting);
    BehindGet(s.number, s.queue);
    hide Behind, AdmittingLast;
    AheadSame(s.delivered, s.workers[0], DoGet(s, 0, s.queue[0]).workers[0]);
  }

  lemma GetLast(queue: seq<Item>, admitting: Option<Item>)
    requires queue != [] && AdmittingLast(queue, None, admitting)
    ensures AdmittingLast(queue[1..], Some(queue[0]), admitting)
  {
  }

  lemma BehindGet(number: NumberOf, queue: seq<Item>)
    requires queue != []
    ensures Behind(Some(queue[0]), number, queue[1..]) == Behind(None, number, queue)
  {
  }

  lemma AheadSame(delivered: seq<Slot>, w: Worker, v: Worker)
    requires w.batch == v.batch && w.delivered == v.delivered
    ensures Ahead(delivered, w) == Ahead(delivered, v)
  {
  }

  lemma TakeOrder(s: State)
    requires Inv(s) && OrderOk(s) && Enabled(s, Take(0))
    ensures OrderOk(DoTake(s, 0, s.workers[0].hand.value))
  {
    Located(s);
    HeldIsRegistered(s, 0);
    hide Inv, PipelineOk, Ahead, Behind, AdmittingLast;
    var event := s.workers[0].hand.value;
    TakePipeline(s.delivered, s.workers[0], s.number, s.queue, event, DoTake(s, 0, event).workers[0]);
    AdmittedLast(s.queue, None);
  }

  lemma TakePipeline(delivered: seq<Slot>, w: Worker, number: NumberOf, queue: seq<Item>, e: Item, v: Worker)
    requires w.hand == Some(e) && e in number && !w.delivered
    requires v == w.(hand := None, batch := w.batch + [Slot(e, Some(number[e]))])
    ensures Pipeline(delivered, v, number, queue) == Pipeline(delivered, w, number, queue)
  {
    var slot := Slot(e, Some(number[e]));
    NumsSum(w.batch, [slot]);
    assert Nums([slot]) == [number[e]];
    hide Nums, Queued;
  }

  lemma DeliverOrder(s: State)
    requires OrderOk(s) && Enabled(s, Deliver(0))
    ensures OrderOk(DoDeliver(s, 0))
  {
    hide PipelineOk, Behind, AdmittingLast;
    NumsSum(s.delivered, s.workers[0].batch);
    hide Nums;
    assert Ahead(s.delivered + s.workers[0].batch, s.workers[0].(delivered := true)) == Ahead(s.delivered, s.workers[0]);
    hide Ahead;
  }

  lemma CompleteOrder(s: State)
    requires Inv(s) && OrderOk(s) && Enabled(s, Complete(0))
    ensures OrderOk(DoComplete(s, 0))
  {
    var number := s.number - EventsIn(s.workers[0].batch);
    CompletedElsewhere(s);
    hide Inv, PipelineOk, EventsIn, Numbers, AdmittingLast, One, Behind, Ahead;
    BehindDepends(s.workers[0].hand, s.number, number, s.queue);
    AheadCompleted(s.delivered, s.workers[0]);
    AdmittedLast(s.queue, s.workers[0].hand);
  }

  lemma AheadCompleted(delivered: seq<Slot>, w: Worker)
    requires w.delivered
    ensures Ahead(delivered, w.(batch := [], delivered := false)) == Ahead(delivered, w)
  {
  }

  lemma CompletedElsewhere(s: State)
    requires Inv(s) && |s.workers| == 1 && Enabled(s, Complete(0))
    ensures forall x :: x in s.queue || s.workers[0].hand == Some(x) ==>
      One(x, s.number) == One(x, s.number - EventsIn(s.workers[0].batch))
  {
    Located(s);
    BatchNumbers(s, 0);
    hide Inv, Numbers;
  }

  lemma BehindDepends(hand: Option<Item>, number: NumberOf, other: NumberOf, queue: seq<Item>)
    requires forall x :: x in queue || hand == Some(x) ==> One(x, number) == One(x, other)
    ensures Behind(hand, number, queue) == Behind(hand, other, queue)
  {
    QueuedDepends(queue, number, other);
  }

  lemma FinishOrder(s: State)
    requires Inv(s) && OrderOk(s) && Enabled(s, Finish(0))
    ensures OrderOk(Next(s, Finish(0)))
  {
    Located(s);
    hide Inv, PipelineOk, Ahead, Queued;
    AheadSame(s.delivered, s.workers[0], Next(s, Finish(0)).workers[0]);
    assert Behind(None, s.number, s.queue) == Behind(s.workers[0].hand, s.number, s.queue);
    hide Behind;
    FinishLast(s.queue, s.workers[0].hand, s.admitting);
    hide AdmittingLast;
  }

  lemma FinishLast(queue: seq<Item>, hand: Option<Item>, admitting: Option<Item>)
    requires AdmittingLast(queue, hand, admitting)
    ensures AdmittingLast(queue, None, admitting)
  {
  }

  /** Eviction takes one sequence out and leaves the others as they are. */
  lemma EvictOrder(s: State, e: nat, k: nat)
    requires OrderOk(s) && Enabled(s, Evict(e, k))
    ensures OrderOk(DoEvict(s, e, k))
  {
    hide IsVictim, PipelineOk, Ahead, Behind;
    EvictLast(s.queue, k, s.workers[0].hand, s.admitting);
    hide AdmittingLast;
    EvictPipeline(Ahead(s.delivered, s.workers[0]), s.workers[0].hand, s.queue, k, s.number, |s.admitted|);
  }

  lemma EvictLast(queue: seq<Item>, k: nat, hand: Option<Item>, admitting: Option<Item>)
    requires k < |queue| && AdmittingLast(queue, hand, admitting)
    ensures AdmittingLast(Without(queue, k), hand, admitting)
  {
    var rest := Without(queue, k);
    assert forall i :: 0 <= i < |rest| ==> rest[i] == queue[if i < k then i else i + 1];
  }

  lemma EvictPipeline(ahead: seq<Seq>, hand: Option<Item>, queue: seq<Item>, k: nat, number: NumberOf, admitted: nat)
    requires k < |queue| && PipelineOk(ahead + Behind(hand, number, queue), admitted)
    ensures PipelineOk(ahead + Behind(hand, number, Without(queue, k)), admitted)
  {
    hide PipelineOk;
    var f, b := QueuedSplit(queue, k, number);
    hide Queued, One;
    var held := if hand.Some? then One(hand.value, number) else [];
    Regroup(ahead, held, f, One(queue[k], number), b);
    hide Without;
    IncreasingWithout(ahead + held + f, One(queue[k], number), b, admitted);
  }

  lemma Regroup(ahead: seq<Seq>, held: seq<Seq>, f: seq<Seq>, x: seq<Seq>, b: seq<Seq>)
    ensures ahead + (held + (f + x + b)) == (ahead + held + f) + x + b
    ensures ahead + (held + (f + b)) == (ahead + held + f) + b
  {
  }

  lemma QueuedSplit(queue: seq<Item>, k: nat, number: NumberOf) returns (f: seq<Seq>, b: seq<Seq>)
    requires k < |queue|
    ensures Queued(queue, number) == f + One(queue[k], number) + b
    ensures Queued(Without(queue, k), number) == f + b
  {
    var front, x, back := queue[..k], queue[k], queue[k + 1..];
    assert queue == front + [x] + back;
    QueuedSum(front + [x], back, number);
    QueuedSum(front, [x], number);
    QueuedSum(front, back, number);
    QueuedOne(x, number);
    return Queued(front, number), Queued(back, number);
  }

  lemma CompleteEvictedOrder(s: State, e: nat)
    requires Inv(s) && OrderOk(s) && e in s.evictors && s.admitting.None? && s.evictors[e].Reserved?
    ensures OrderOk(DoCompleteEvicted(s, e, s.evictors[e].event, s.evictors[e].n))
  {
    Located(s);
    ReservedIsNumbered(s, e);
    hide Inv, PipelineOk, Ahead, Behind, AdmittingLast;
    BehindDepends(s.workers[0].hand, s.number, s.number - {s.evictors[e].event}, s.queue);
  }

  lemma StepOrder(s: State, a: Action)
    requires Inv(s) && OrderOk(s) && Enabled(s, a)
    ensures OrderOk(Next(s, a))
  {
    hide Inv, IsVictim, OrderOk;
    assert |s.workers| == 1 by { OneWorker(s); }
    match a {
      case Put(event) => PutOrder(s, event);
      case Admit => AdmitOrder(s, s.admitting.value);
      case PutRequest(request) => RequestOrder(s, request);
      case Get(w) => GetOrder(s);
      case Take(w) => TakeOrder(s);
      case Deliver(w) => DeliverOrder(s);
      case Complete(w) => CompleteOrder(s);
      case Finish(w) => FinishOrder(s);
      case Evict(e, k) => EvictOrder(s, e, k);
      case CompleteEvicted(e) => CompleteEvictedOrder(s, e);
      case Account(e) => SameOrder(s, Next(s, a));
      case TakeEvicted(e) => SameOrder(s, Next(s, a));
      case ReadTarget(f) => SameOrder(s, Next(s, a));
    }
  }

  lemma OneWorker(s: State)
    requires OrderOk(s)
    ensures |s.workers| == 1
  {
  }

  lemma SameOrder(s: State, t: State)
    requires OrderOk(s)
    requires t.queue == s.queue && t.workers == s.workers && t.admitted == s.admitted && t.admitting == s.admitting
    requires t.delivered == s.delivered && t.number == s.number
    ensures OrderOk(t)
  {
  }

  lemma {:induction false} RunOrder(s: State, run: seq<Action>)
    requires Inv(s) && OrderOk(s) && Possible(s, run)
    ensures OrderOk(After(s, run))
    decreases |run|
  {
    hide Inv, OrderOk, Enabled;
    if run != [] {
      StepKeeps(s, run[0]);
      StepOrder(s, run[0]);
      RunOrder(Next(s, run[0]), run[1..]);
    }
  }

  /** With one worker the sequences handed to the drains strictly increase over every run: delivery
      order is a subsequence of admission order. */
  lemma DeliveredInAdmissionOrder(capacity: nat, run: seq<Action>)
    requires Possible(Start(capacity, 1), run)
    ensures var t := After(Start(capacity, 1), run);
      && Increasing(Nums(t.delivered))
      && (forall x :: x in t.delivered ==> x.n.Some? && x.n.value < |t.admitted| && t.admitted[x.n.value] == x.event)
  {
    hide Inv, Enabled;
    var s := Start(capacity, 1);
    StartInv(capacity, 1);
    NothingDelivered(capacity, 1);
    StartOrder(capacity);
    RunOrder(s, run);
    RunDelivers(s, run);
    DeliveredPrefix(After(s, run));
  }

  lemma StartOrder(capacity: nat)
    ensures OrderOk(Start(capacity, 1))
  {
    assert Pipeline([], Start(capacity, 1).workers[0], map[], []) == [];
  }

  lemma DeliveredPrefix(s: State)
    requires OrderOk(s)
    ensures Increasing(Nums(s.delivered))
  {
    var p := Nums(s.delivered);
    var all := Pipeline(s.delivered, s.workers[0], s.number, s.queue);
    assert forall i :: 0 <= i < |p| ==> p[i] == all[i];
  }
}

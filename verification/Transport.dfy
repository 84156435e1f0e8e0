/** The worker backend as a concurrent machine: emitters, workers, evictors and flushers interleaved at
    every lock boundary.

    Each action is one atomic piece of code: an operation on the queue under its mutex, or a critical
    section of the progress condition.  `put_nowait` and `_admit` are two actions, because workers and
    evictors need only the queue's mutex and may run in between; the progress lock is then held by the
    emitter, which `admitting` records.
 */
module Transport {
  import opened Keys
  import opened EvictQueue

  type Seq = nat

  /** An event with the admission sequence its worker reserved for it. */
  datatype Slot = Slot(event: Item, n: Option<Seq>)

  /** `hand` is what the last `get` returned and the worker has not yet dealt with; `delivered` says that
      the batch went to the drains and awaits completion. */
  datatype Worker = Worker(hand: Option<Item>, batch: seq<Slot>, delivered: bool)

  /** An evicting emitter, between removing its victim and completing it in the barrier. */
  datatype Evictor = Popped(event: Item) | Accounted(event: Item) | Reserved(event: Item, n: Seq)

  datatype Spot = AtQueue | AtHand(worker: nat) | AtBatch(worker: nat) | AtEvictor(evictor: nat) | AtReserved(evictor: nat)

  /** The fields of the backend (`_next_sequence` is the length of `admitted`, `_sequences_by_event` is
      `unreserved`) and of its threads; then history: what was handed to the drains, what evictions
      disposed of, and where each event in flight is, with its sequence. */
  datatype State = State(
    capacity: nat,
    queue: seq<Item>,
    admitted: seq<Item>,
    pending: set<Seq>,
    unreserved: map<Item, Seq>,
    admitting: Option<Item>,
    workers: seq<Worker>,
    evictors: map<nat, Evictor>,
    targets: map<nat, Seq>,
    requestsDone: set<nat>,
    delivered: seq<Slot>,
    evicted: set<Seq>,
    place: map<Item, Spot>,
    number: map<Item, Seq>)

  datatype Action =
    | Put(event: Item)
    | Admit
    | PutRequest(request: Item)
    | Get(worker: nat)
    | Take(worker: nat)
    | Deliver(worker: nat)
    | Complete(worker: nat)
    | Finish(worker: nat)
    | Evict(evictor: nat, index: nat)
    | Account(evictor: nat)
    | TakeEvicted(evictor: nat)
    | CompleteEvicted(evictor: nat)
    | ReadTarget(flusher: nat)

  function Numbers(slots: seq<Slot>): set<Seq> { set x | x in slots && x.n.Some? :: x.n.value }

  function EventsIn(slots: seq<Slot>): set<Item> { set x | x in slots :: x.event }

  predicate HoldsEvent(w: Worker) { w.hand.Some? && w.hand.value.Event? }

  predicate HoldsRequest(w: Worker) { w.hand.Some? && w.hand.value.Control? }

  predicate Enabled(s: State, a: Action) {
    match a
    // Events in flight are distinct objects.
    case Put(event) => s.admitting.None? && |s.queue| < s.capacity && event.Event? && event !in s.place
    case Admit => s.admitting.Some?
    case PutRequest(request) => |s.queue| < s.capacity && request.Control?
    case Get(w) => w < |s.workers| && s.queue != [] && s.workers[w].hand.None? && !s.workers[w].delivered
    case Take(w) => w < |s.workers| && s.admitting.None? && HoldsEvent(s.workers[w])
    case Deliver(w) => w < |s.workers| && !s.workers[w].delivered && !HoldsEvent(s.workers[w])
    case Complete(w) => w < |s.workers| && s.admitting.None? && s.workers[w].delivered
    case Finish(w) => w < |s.workers| && s.workers[w].batch == [] && !s.workers[w].delivered && HoldsRequest(s.workers[w])
    case Evict(e, k) => e !in s.evictors && k < |s.queue| && IsVictim(s.queue, k)
    case Account(e) => e in s.evictors && s.evictors[e].Popped?
    case TakeEvicted(e) => e in s.evictors && s.admitting.None? && s.evictors[e].Accounted?
    case CompleteEvicted(e) => e in s.evictors && s.admitting.None? && s.evictors[e].Reserved?
    case ReadTarget(f) => s.admitting.None?
  }

  function DoPut(s: State, event: Item): State {
    s.(queue := s.queue + [event], admitting := Some(event), place := s.place[event := AtQueue])
  }

  /** `_admit`. */
  function DoAdmit(s: State, event: Item): State {
    var n := |s.admitted|;
    s.(admitted := s.admitted + [event], pending := s.pending + {n}, unreserved := s.unreserved[event := n],
       admitting := None, number := s.number[event := n])
  }

  function DoGet(s: State, w: nat, item: Item): State
    requires w < |s.workers| && s.queue != []
  {
    s.(queue := s.queue[1..], workers := s.workers[w := s.workers[w].(hand := Some(item))],
       place := if item.Event? then s.place[item := AtHand(w)] else s.place)
  }

  /** `_take_sequence` on a dequeued event: `None` when no sequence is registered. */
  function DoTake(s: State, w: nat, event: Item): State
    requires w < |s.workers|
  {
    var n := if event in s.unreserved then Some(s.unreserved[event]) else None;
    s.(workers := s.workers[w := s.workers[w].(hand := None, batch := s.workers[w].batch + [Slot(event, n)])],
       unreserved := s.unreserved - {event}, place := s.place[event := AtBatch(w)])
  }

  function DoDeliver(s: State, w: nat): State
    requires w < |s.workers|
  {
    s.(workers := s.workers[w := s.workers[w].(delivered := true)], delivered := s.delivered + s.workers[w].batch)
  }

  /** `_mark_completed` on a batch. */
  function DoComplete(s: State, w: nat): State
    requires w < |s.workers|
  {
    var batch := s.workers[w].batch;
    s.(workers := s.workers[w := s.workers[w].(batch := [], delivered := false)],
       pending := s.pending - Numbers(batch),
       place := s.place - EventsIn(batch), number := s.number - EventsIn(batch))
  }

  function DoEvict(s: State, e: nat, k: nat): State
    requires k < |s.queue|
  {
    s.(queue := Without(s.queue, k), evictors := s.evictors[e := Popped(s.queue[k])],
       place := s.place[s.queue[k] := AtEvictor(e)])
  }

  function DoTakeEvicted(s: State, e: nat): State
    requires e in s.evictors
  {
    var event := s.evictors[e].event;
    if event in s.unreserved then
      s.(evictors := s.evictors[e := Reserved(event, s.unreserved[event])], evicted := s.evicted + {s.unreserved[event]},
         unreserved := s.unreserved - {event}, place := s.place[event := AtReserved(e)])
    else s.(evictors := s.evictors - {e}, place := s.place - {event})
  }

  function DoCompleteEvicted(s: State, e: nat, event: Item, n: Seq): State {
    s.(evictors := s.evictors - {e}, pending := s.pending - {n}, place := s.place - {event}, number := s.number - {event})
  }

  function Next(s: State, a: Action): State
    requires Enabled(s, a)
  {
    match a
    case Put(event) => DoPut(s, event)
    case Admit => DoAdmit(s, s.admitting.value)
    case PutRequest(request) => s.(queue := s.queue + [request])
    case Get(w) => DoGet(s, w, s.queue[0])
    case Take(w) => DoTake(s, w, s.workers[w].hand.value)
    case Deliver(w) => DoDeliver(s, w)
    case Complete(w) => DoComplete(s, w)
    case Finish(w) =>
      s.(workers := s.workers[w := s.workers[w].(hand := None)],
         requestsDone := s.requestsDone + {s.workers[w].hand.value.request})
    case Evict(e, k) => DoEvict(s, e, k)
    case Account(e) => s.(evictors := s.evictors[e := Accounted(s.evictors[e].event)])
    case TakeEvicted(e) => DoTakeEvicted(s, e)
    case CompleteEvicted(e) => DoCompleteEvicted(s, e, s.evictors[e].event, s.evictors[e].n)
    case ReadTarget(f) => s.(targets := s.targets[f := |s.admitted|])
  }

  // ---------------------------------------------------------------- the invariant

  type Places = map<Item, Spot>
  type NumberOf = map<Item, Seq>

  /** Not yet claimed by a worker's batch or an evictor. */
  predicate Waiting(p: Spot) { p.AtQueue? || p.AtHand? || p.AtEvictor? }

  /** The pending set holds exactly the sequences of the admitted events in flight. */
  ghost predicate NumbersOk(admitted: seq<Item>, admitting: Option<Item>, pending: set<Seq>, place: Places, number: NumberOf) {
    && (forall e :: e in place <==> e in number || admitting == Some(e))
    && (admitting.Some? ==> admitting.value !in number && Waiting(place[admitting.value]))
    && (forall e :: e in number ==> number[e] < |admitted| && admitted[number[e]] == e && number[e] in pending)
    && (forall n :: n in pending ==> n < |admitted| && admitted[n] in number && number[admitted[n]] == n)
  }

  ghost predicate UnreservedOk(unreserved: NumberOf, place: Places, number: NumberOf) {
    && (forall e :: e in unreserved ==> e in number && e in place && unreserved[e] == number[e] && Waiting(place[e]))
    && (forall e :: e in number && e in place && Waiting(place[e]) ==> e in unreserved)
  }

  ghost predicate QueueOk(queue: seq<Item>, place: Places) {
    && (forall i, j :: 0 <= i < j < |queue| && queue[i].Event? ==> queue[i] != queue[j])
    && (forall x :: x in queue && x.Event? ==> x in place && place[x] == AtQueue)
    && (forall x :: x in place ==> x.Event? && (place[x] == AtQueue ==> x in queue))
  }

  ghost predicate WorkerOk(w: nat, worker: Worker, place: Places, number: NumberOf, delivered: seq<Slot>) {
    && (HoldsEvent(worker) ==> worker.hand.value in place && place[worker.hand.value] == AtHand(w) && !worker.delivered)
    && (forall x :: x in worker.batch ==>
          && x.event in number && x.n == Some(number[x.event])
          && x.event in place && place[x.event] == AtBatch(w)
          && (worker.delivered ==> x in delivered))
  }

  ghost predicate WorkersOk(workers: seq<Worker>, place: Places, number: NumberOf, delivered: seq<Slot>) {
    && (forall w :: 0 <= w < |workers| ==> WorkerOk(w, workers[w], place, number, delivered))
    && (forall x :: x in place && place[x].AtHand? ==>
          place[x].worker < |workers| && workers[place[x].worker].hand == Some(x))
    && (forall x :: x in place && place[x].AtBatch? ==>
          x in number && place[x].worker < |workers| && Slot(x, Some(number[x])) in workers[place[x].worker].batch)
  }

  ghost predicate EvictorOk(t: nat, e: Evictor, place: Places, number: NumberOf, evicted: set<Seq>) {
    && e.event in place
    && (!e.Reserved? ==> place[e.event] == AtEvictor(t))
    && (e.Reserved? ==> place[e.event] == AtReserved(t) && e.event in number && number[e.event] == e.n && e.n in evicted)
  }

  ghost predicate EvictorsOk(evictors: map<nat, Evictor>, place: Places, number: NumberOf, evicted: set<Seq>) {
    && (forall t :: t in evictors ==> EvictorOk(t, evictors[t], place, number, evicted))
    && (forall x :: x in place && (place[x].AtEvictor? || place[x].AtReserved?) ==>
          place[x].evictor in evictors && evictors[place[x].evictor].event == x
          && (evictors[place[x].evictor].Reserved? <==> place[x].AtReserved?))
  }

  /** Every admitted sequence is pending, or was handed to the drains, or was evicted. */
  ghost predicate HandledOk(admitted: nat, pending: set<Seq>, evicted: set<Seq>, delivered: seq<Slot>) {
    && (forall n :: 0 <= n < admitted ==> n in pending || n in evicted || n in Numbers(delivered))
    && (forall n :: n in evicted || n in Numbers(delivered) ==> n < admitted)
  }

  ghost predicate Inv(s: State) {
    && |s.queue| <= s.capacity
    && NumbersOk(s.admitted, s.admitting, s.pending, s.place, s.number)
    && UnreservedOk(s.unreserved, s.place, s.number)
    && QueueOk(s.queue, s.place)
    && WorkersOk(s.workers, s.place, s.number, s.delivered)
    && EvictorsOk(s.evictors, s.place, s.number, s.evicted)
    && HandledOk(|s.admitted|, s.pending, s.evicted, s.delivered)
    && (forall f :: f in s.targets ==> s.targets[f] <= |s.admitted|)
  }

  function Start(capacity: nat, workers: nat): State {
    State(capacity, [], [], {}, map[], None, seq(workers, i => Worker(None, [], false)), map[], map[], {}, [], {}, map[], map[])
  }

  lemma StartInv(capacity: nat, workers: nat)
    ensures Inv(Start(capacity, workers))
  {
  }

  // ---------------------------------------------------------------- moving one event

  predicate OfQueue(p: Spot) { p.AtQueue? }
  predicate OfWorker(p: Spot) { p.AtHand? || p.AtBatch? }
  predicate OfEvictor(p: Spot) { p.AtEvictor? || p.AtReserved? }

  lemma NumbersMoved(admitted: seq<Item>, admitting: Option<Item>, pending: set<Seq>, place: Places, number: NumberOf, e: Item, p: Spot)
    requires NumbersOk(admitted, admitting, pending, place, number) && e in place
    requires admitting == Some(e) ==> Waiting(p)
    ensures NumbersOk(admitted, admitting, pending, place[e := p], number)
  {
  }

  lemma UnreservedMoved(unreserved: NumberOf, place: Places, number: NumberOf, e: Item, p: Spot)
    requires UnreservedOk(unreserved, place, number) && e in place && Waiting(place[e]) && Waiting(p)
    ensures UnreservedOk(unreserved, place[e := p], number)
  {
  }

  /** A worker or evictor reserves the sequence. */
  lemma UnreservedTaken(unreserved: NumberOf, place: Places, number: NumberOf, e: Item, p: Spot)
    requires UnreservedOk(unreserved, place, number) && e in place && !Waiting(p)
    ensures UnreservedOk(unreserved - {e}, place[e := p], number)
  {
  }

  lemma QueueElsewhere(queue: seq<Item>, place: Places, e: Item, p: Spot)
    requires QueueOk(queue, place) && e in place && !OfQueue(place[e]) && !OfQueue(p)
    ensures QueueOk(queue, place[e := p])
  {
  }

  lemma QueueTaken(queue: seq<Item>, place: Places, k: nat, p: Spot)
    requires QueueOk(queue, place) && k < |queue| && !OfQueue(p)
    ensures QueueOk(Without(queue, k), if queue[k].Event? then place[queue[k] := p] else place)
  {
    var rest := Without(queue, k);
    assert forall i :: 0 <= i < |rest| ==> rest[i] == queue[if i < k then i else i + 1];
    forall x | x in queue && x != queue[k] ensures x in rest {
      var i :| 0 <= i < |queue| && queue[i] == x;
      assert rest[if i < k then i else i - 1] == x;
    }
  }

  lemma WorkersElsewhere(workers: seq<Worker>, place: Places, number: NumberOf, delivered: seq<Slot>, e: Item, p: Spot)
    requires WorkersOk(workers, place, number, delivered)
    requires !OfWorker(p) && (e in place ==> !OfWorker(place[e]))
    ensures WorkersOk(workers, place[e := p], number, delivered)
  {
    forall w | 0 <= w < |workers| ensures WorkerOk(w, workers[w], place[e := p], number, delivered) {
      assert WorkerOk(w, workers[w], place, number, delivered);
    }
  }

  lemma EvictorsElsewhere(evictors: map<nat, Evictor>, place: Places, number: NumberOf, evicted: set<Seq>, e: Item, p: Spot)
    requires EvictorsOk(evictors, place, number, evicted)
    requires !OfEvictor(p) && (e in place ==> !OfEvictor(place[e]))
    ensures EvictorsOk(evictors, place[e := p], number, evicted)
  {
    forall t | t in evictors ensures EvictorOk(t, evictors[t], place[e := p], number, evicted) {
      assert EvictorOk(t, evictors[t], place, number, evicted);
    }
  }

  // ---------------------------------------------------------------- the actions

  lemma PutKeeps(s: State, event: Item)
    requires Inv(s) && Enabled(s, Put(event))
    ensures Inv(DoPut(s, event))
  {
    WorkersElsewhere(s.workers, s.place, s.number, s.delivered, event, AtQueue);
    EvictorsElsewhere(s.evictors, s.place, s.number, s.evicted, event, AtQueue);
    hide WorkersOk, EvictorsOk, HandledOk;
    PutParts(s, event);
  }

  lemma PutParts(s: State, event: Item)
    requires Inv(s) && Enabled(s, Put(event))
    ensures NumbersOk(s.admitted, Some(event), s.pending, s.place[event := AtQueue], s.number)
    ensures UnreservedOk(s.unreserved, s.place[event := AtQueue], s.number)
    ensures QueueOk(s.queue + [event], s.place[event := AtQueue])
  {
    hide WorkersOk, EvictorsOk, HandledOk;
    assert event !in s.number && event !in s.queue;
  }

  lemma AdmitKeeps(s: State, event: Item)
    requires Inv(s) && s.admitting == Some(event)
    ensures Inv(DoAdmit(s, event))
  {
    hide NumbersOk, UnreservedOk, QueueOk, WorkersOk, EvictorsOk, HandledOk;
    AdmitNumbers(s.admitted, event, s.pending, s.place, s.number);
    AdmitUnreserved(s.admitted, event, s.pending, s.unreserved, s.place, s.number);
    AdmitWorkers(s, event);
    AdmitEvictors(s, event);
    AdmitHandled(|s.admitted|, s.pending, s.evicted, s.delivered);
  }

  lemma AdmitNumbers(admitted: seq<Item>, e: Item, pending: set<Seq>, place: Places, number: NumberOf)
    requires NumbersOk(admitted, Some(e), pending, place, number)
    ensures NumbersOk(admitted + [e], None, pending + {|admitted|}, place, number[e := |admitted|])
  {
  }

  lemma AdmitUnreserved(admitted: seq<Item>, e: Item, pending: set<Seq>, unreserved: NumberOf, place: Places, number: NumberOf)
    requires NumbersOk(admitted, Some(e), pending, place, number) && UnreservedOk(unreserved, place, number)
    ensures UnreservedOk(unreserved[e := |admitted|], place, number[e := |admitted|])
  {
  }

  lemma AdmitWorkers(s: State, event: Item)
    requires Inv(s) && s.admitting == Some(event)
    ensures WorkersOk(s.workers, s.place, s.number[event := |s.admitted|], s.delivered)
  {
    var number := s.number[event := |s.admitted|];
    assert event !in s.number;
    hide NumbersOk, UnreservedOk, QueueOk, EvictorsOk, HandledOk;
    forall w | 0 <= w < |s.workers| ensures WorkerOk(w, s.workers[w], s.place, number, s.delivered) {
      assert WorkerOk(w, s.workers[w], s.place, s.number, s.delivered);
    }
  }

  lemma AdmitEvictors(s: State, event: Item)
    requires Inv(s) && s.admitting == Some(event)
    ensures EvictorsOk(s.evictors, s.place, s.number[event := |s.admitted|], s.evicted)
  {
    var number := s.number[event := |s.admitted|];
    assert event !in s.number;
    hide NumbersOk, UnreservedOk, QueueOk, WorkersOk, HandledOk;
    forall t | t in s.evictors ensures EvictorOk(t, s.evictors[t], s.place, number, s.evicted) {
      assert EvictorOk(t, s.evictors[t], s.place, s.number, s.evicted);
    }
  }

  lemma AdmitHandled(admitted: nat, pending: set<Seq>, evicted: set<Seq>, delivered: seq<Slot>)
    requires HandledOk(admitted, pending, evicted, delivered)
    ensures HandledOk(admitted + 1, pending + {admitted}, evicted, delivered)
  {
  }

  lemma GetKeeps(s: State, w: nat)
    requires Inv(s) && Enabled(s, Get(w))
    ensures Inv(DoGet(s, w, s.queue[0]))
  {
    HeadAtQueue(s.queue, s.place);
    hide NumbersOk, UnreservedOk, QueueOk, WorkersOk, EvictorsOk, HandledOk;
    var item := s.queue[0];
    assert Without(s.queue, 0) == s.queue[1..];
    QueueTaken(s.queue, s.place, 0, AtHand(w));
    GetWorkers(s, w);
    if item.Event? {
      NumbersMoved(s.admitted, s.admitting, s.pending, s.place, s.number, item, AtHand(w));
      UnreservedMoved(s.unreserved, s.place, s.number, item, AtHand(w));
      EvictorsElsewhere(s.evictors, s.place, s.number, s.evicted, item, AtHand(w));
    }
  }

  lemma HeadAtQueue(queue: seq<Item>, place: Places)
    requires QueueOk(queue, place) && queue != []
    ensures queue[0].Event? ==> queue[0] in place && place[queue[0]] == AtQueue
  {
  }

  lemma GetWorkers(s: State, w: nat)
    requires Inv(s) && Enabled(s, Get(w))
    ensures var t := DoGet(s, w, s.queue[0]); WorkersOk(t.workers, t.place, t.number, t.delivered)
  {
    var item := s.queue[0];
    assert item.Event? ==> item in s.place && s.place[item] == AtQueue;
    assert forall x :: x in s.place ==> x.Event?;
    hide NumbersOk, UnreservedOk, QueueOk, WorkersOk, EvictorsOk, HandledOk;
    if item.Event? {
      WorkersHold(s.workers, s.place, s.number, s.delivered, w, item);
    } else {
      WorkersRequest(s.workers, s.place, s.number, s.delivered, w, Some(item));
    }
  }

  lemma WorkersHold(workers: seq<Worker>, place: Places, number: NumberOf, delivered: seq<Slot>, w: nat, item: Item)
    requires WorkersOk(workers, place, number, delivered) && w < |workers| && workers[w].hand.None? && !workers[w].delivered
    requires item in place && !OfWorker(place[item])
    ensures WorkersOk(workers[w := workers[w].(hand := Some(item))], place[item := AtHand(w)], number, delivered)
  {
    WorkersElsewhereBut(workers, place, number, delivered, item, AtHand(w));
    forall v | 0 <= v < |workers| && v != w ensures WorkerOk(v, workers[v], place[item := AtHand(w)], number, delivered) {
    }
  }

  /** Workers that do not hold `e` do not see it move. */
  lemma WorkersElsewhereBut(workers: seq<Worker>, place: Places, number: NumberOf, delivered: seq<Slot>, e: Item, p: Spot)
    requires WorkersOk(workers, place, number, delivered) && e in place
    ensures forall v :: 0 <= v < |workers| && place[e] != AtHand(v) && place[e] != AtBatch(v) ==>
      WorkerOk(v, workers[v], place[e := p], number, delivered)
  {
    forall v | 0 <= v < |workers| && place[e] != AtHand(v) && place[e] != AtBatch(v)
      ensures WorkerOk(v, workers[v], place[e := p], number, delivered)
    {
      assert WorkerOk(v, workers[v], place, number, delivered);
    }
  }

  /** A control request in hand, or put down, concerns no event. */
  lemma WorkersRequest(workers: seq<Worker>, place: Places, number: NumberOf, delivered: seq<Slot>, w: nat, hand: Option<Item>)
    requires WorkersOk(workers, place, number, delivered) && w < |workers| && !HoldsEvent(workers[w])
    requires hand.Some? ==> hand.value.Control?
    requires forall x :: x in place ==> x.Event?
    ensures WorkersOk(workers[w := workers[w].(hand := hand)], place, number, delivered)
  {
    var after := workers[w := workers[w].(hand := hand)];
    forall v | 0 <= v < |workers| ensures WorkerOk(v, after[v], place, number, delivered) {
      assert WorkerOk(v, workers[v], place, number, delivered);
    }
  }

  lemma TakeKeeps(s: State, w: nat)
    requires Inv(s) && Enabled(s, Take(w))
    ensures Inv(DoTake(s, w, s.workers[w].hand.value))
    ensures s.workers[w].hand.value in s.unreserved
  {
    var event := s.workers[w].hand.value;
    HeldIsRegistered(s, w);
    TakeWorkers(s, w);
    NumbersMoved(s.admitted, s.admitting, s.pending, s.place, s.number, event, AtBatch(w));
    UnreservedTaken(s.unreserved, s.place, s.number, event, AtBatch(w));
    QueueElsewhere(s.queue, s.place, event, AtBatch(w));
    EvictorsElsewhere(s.evictors, s.place, s.number, s.evicted, event, AtBatch(w));
    hide NumbersOk, UnreservedOk, QueueOk, WorkersOk, EvictorsOk, HandledOk;
  }

  /** `_take_sequence` always finds the sequence of a dequeued event, however the threads interleave. */
  lemma HeldIsRegistered(s: State, w: nat)
    requires Inv(s) && w < |s.workers| && s.admitting.None? && HoldsEvent(s.workers[w])
    ensures var event := s.workers[w].hand.value;
      event in s.unreserved && event in s.number && s.unreserved[event] == s.number[event]
      && event in s.place && s.place[event] == AtHand(w)
  {
    assert WorkerOk(w, s.workers[w], s.place, s.number, s.delivered);
    hide WorkersOk, QueueOk, EvictorsOk, HandledOk;
  }

  lemma TakeWorkers(s: State, w: nat)
    requires Inv(s) && Enabled(s, Take(w))
    ensures var t := DoTake(s, w, s.workers[w].hand.value); WorkersOk(t.workers, t.place, t.number, t.delivered)
  {
    HeldIsRegistered(s, w);
    hide NumbersOk, UnreservedOk, QueueOk, WorkersOk, EvictorsOk, HandledOk;
    WorkersTake(s.workers, s.place, s.number, s.delivered, w, s.workers[w].hand.value);
  }

  lemma WorkersTake(workers: seq<Worker>, place: Places, number: NumberOf, delivered: seq<Slot>, w: nat, e: Item)
    requires WorkersOk(workers, place, number, delivered) && w < |workers| && HoldsEvent(workers[w])
    requires workers[w].hand.value == e && e in number && e in place && place[e] == AtHand(w)
    ensures WorkersOk(workers[w := workers[w].(hand := None, batch := workers[w].batch + [Slot(e, Some(number[e]))])],
                      place[e := AtBatch(w)], number, delivered)
  {
    WorkersElsewhereBut(workers, place, number, delivered, e, AtBatch(w));
    assert WorkerOk(w, workers[w], place, number, delivered);
    var slot := Slot(e, Some(number[e]));
    assert slot in workers[w].batch + [slot];
    forall x | x in workers[w].batch ensures x.event != e {
    }
  }

  lemma DeliverKeeps(s: State, w: nat)
    requires Inv(s) && Enabled(s, Deliver(w))
    ensures Inv(DoDeliver(s, w))
  {
    hide NumbersOk, UnreservedOk, QueueOk, WorkersOk, EvictorsOk, HandledOk;
    DeliverWorkers(s, w);
    DeliverHandled(s, w);
  }

  lemma DeliverWorkers(s: State, w: nat)
    requires Inv(s) && Enabled(s, Deliver(w))
    ensures var t := DoDeliver(s, w); WorkersOk(t.workers, t.place, t.number, t.delivered)
  {
    hide NumbersOk, UnreservedOk, QueueOk, EvictorsOk, HandledOk;
    var t := DoDeliver(s, w);
    forall v | 0 <= v < |t.workers| ensures WorkerOk(v, t.workers[v], t.place, t.number, t.delivered) {
      assert WorkerOk(v, s.workers[v], s.place, s.number, s.delivered);
    }
  }

  lemma DeliverHandled(s: State, w: nat)
    requires Inv(s) && Enabled(s, Deliver(w))
    ensures HandledOk(|s.admitted|, s.pending, s.evicted, s.delivered + s.workers[w].batch)
  {
    var batch := s.workers[w].batch;
    assert WorkerOk(w, s.workers[w], s.place, s.number, s.delivered);
    assert forall x :: x in batch ==> x.n.value < |s.admitted|;
    hide NumbersOk, UnreservedOk, QueueOk, WorkersOk, EvictorsOk;
    assert Numbers(s.delivered + batch) == Numbers(s.delivered) + Numbers(batch);
  }

  // ---------------------------------------------------------------- leaving flight

  /** Events leave flight together with exactly their sequences. */
  lemma NumbersGone(admitted: seq<Item>, pending: set<Seq>, place: Places, number: NumberOf, gone: set<Item>, done: set<Seq>)
    requires NumbersOk(admitted, None, pending, place, number)
    requires forall n: Seq :: n in done <==> n < |admitted| && admitted[n] in gone && admitted[n] in number && number[admitted[n]] == n
    ensures NumbersOk(admitted, None, pending - done, place - gone, number - gone)
  {
  }

  lemma UnreservedGone(unreserved: NumberOf, place: Places, number: NumberOf, gone: set<Item>)
    requires UnreservedOk(unreserved, place, number) && forall e :: e in gone ==> e in place && !Waiting(place[e])
    ensures UnreservedOk(unreserved, place - gone, number - gone)
  {
  }

  lemma QueueGone(queue: seq<Item>, place: Places, gone: set<Item>)
    requires QueueOk(queue, place) && forall e :: e in gone ==> e in place && !OfQueue(place[e])
    ensures QueueOk(queue, place - gone)
  {
  }

  lemma WorkersGone(workers: seq<Worker>, place: Places, number: NumberOf, delivered: seq<Slot>, gone: set<Item>)
    requires WorkersOk(workers, place, number, delivered)
    requires forall e :: e in gone ==> e in place && !OfWorker(place[e])
    ensures WorkersOk(workers, place - gone, number - gone, delivered)
  {
    forall w | 0 <= w < |workers| ensures WorkerOk(w, workers[w], place - gone, number - gone, delivered) {
      assert WorkerOk(w, workers[w], place, number, delivered);
    }
  }

  lemma EvictorsGone(evictors: map<nat, Evictor>, place: Places, number: NumberOf, evicted: set<Seq>, gone: set<Item>)
    requires EvictorsOk(evictors, place, number, evicted)
    requires forall e :: e in gone ==> e in place && !OfEvictor(place[e])
    ensures EvictorsOk(evictors, place - gone, number - gone, evicted)
  {
    forall t | t in evictors ensures EvictorOk(t, evictors[t], place - gone, number - gone, evicted) {
      assert EvictorOk(t, evictors[t], place, number, evicted);
    }
  }

  lemma HandledGone(admitted: nat, pending: set<Seq>, evicted: set<Seq>, delivered: seq<Slot>, done: set<Seq>)
    requires HandledOk(admitted, pending, evicted, delivered)
    requires forall n :: n in done ==> n in evicted || n in Numbers(delivered)
    ensures HandledOk(admitted, pending - done, evicted, delivered)
  {
  }

  lemma CompleteKeeps(s: State, w: nat)
    requires Inv(s) && Enabled(s, Complete(w))
    ensures Inv(DoComplete(s, w))
  {
    hide NumbersOk, UnreservedOk, QueueOk, WorkersOk, EvictorsOk, HandledOk;
    var batch := s.workers[w].batch;
    BatchNumbers(s, w);
    NumbersGone(s.admitted, s.pending, s.place, s.number, EventsIn(batch), Numbers(batch));
    UnreservedGone(s.unreserved, s.place, s.number, EventsIn(batch));
    QueueGone(s.queue, s.place, EventsIn(batch));
    EvictorsGone(s.evictors, s.place, s.number, s.evicted, EventsIn(batch));
    HandledGone(|s.admitted|, s.pending, s.evicted, s.delivered, Numbers(batch));
    CompleteWorkers(s, w);
  }

  lemma BatchNumbers(s: State, w: nat)
    requires Inv(s) && Enabled(s, Complete(w))
    ensures var batch := s.workers[w].batch;
      && (forall n: Seq :: n in Numbers(batch) <==>
            n < |s.admitted| && s.admitted[n] in EventsIn(batch) && s.admitted[n] in s.number && s.number[s.admitted[n]] == n)
      && (forall e :: e in EventsIn(batch) ==> e in s.place && s.place[e] == AtBatch(w))
      && (forall n :: n in Numbers(batch) ==> n in Numbers(s.delivered))
  {
    assert WorkerOk(w, s.workers[w], s.place, s.number, s.delivered);
    hide UnreservedOk, QueueOk, WorkersOk, EvictorsOk, HandledOk;
    SlotNumbers(w, s.workers[w], s.place, s.number, s.delivered, s.admitted, s.pending);
  }

  lemma SlotNumbers(w: nat, worker: Worker, place: Places, number: NumberOf, delivered: seq<Slot>, admitted: seq<Item>, pending: set<Seq>)
    requires WorkerOk(w, worker, place, number, delivered) && worker.delivered
    requires NumbersOk(admitted, None, pending, place, number)
    ensures forall n: Seq :: n in Numbers(worker.batch) <==>
      (n < |admitted| && admitted[n] in EventsIn(worker.batch) && admitted[n] in number && number[admitted[n]] == n)
    ensures forall e :: e in EventsIn(worker.batch) ==> e in place && place[e] == AtBatch(w)
    ensures forall n :: n in Numbers(worker.batch) ==> n in Numbers(delivered)
  {
  }

  lemma CompleteWorkers(s: State, w: nat)
    requires Inv(s) && Enabled(s, Complete(w))
    ensures var t := DoComplete(s, w); WorkersOk(t.workers, t.place, t.number, t.delivered)
  {
    hide NumbersOk, UnreservedOk, QueueOk, EvictorsOk, HandledOk;
    var t := DoComplete(s, w);
    forall v | 0 <= v < |t.workers| ensures WorkerOk(v, t.workers[v], t.place, t.number, t.delivered) {
      assert WorkerOk(v, s.workers[v], s.place, s.number, s.delivered);
      assert WorkerOk(w, s.workers[w], s.place, s.number, s.delivered);
    }
  }

  lemma EvictKeeps(s: State, e: nat, k: nat)
    requires Inv(s) && Enabled(s, Evict(e, k))
    ensures Inv(DoEvict(s, e, k))
  {
    var event := s.queue[k];
    hide IsVictim;
    assert event in s.place && s.place[event] == AtQueue by { assert event.Event? && event in s.queue; }
    QueueTaken(s.queue, s.place, k, AtEvictor(e));
    NumbersMoved(s.admitted, s.admitting, s.pending, s.place, s.number, event, AtEvictor(e));
    UnreservedMoved(s.unreserved, s.place, s.number, event, AtEvictor(e));
    WorkersElsewhere(s.workers, s.place, s.number, s.delivered, event, AtEvictor(e));
    EvictorsPopped(s.evictors, s.place, s.number, s.evicted, e, event);
    hide NumbersOk, UnreservedOk, QueueOk, WorkersOk, EvictorsOk, HandledOk;
  }

  lemma EvictorsPopped(evictors: map<nat, Evictor>, place: Places, number: NumberOf, evicted: set<Seq>, e: nat, event: Item)
    requires EvictorsOk(evictors, place, number, evicted) && e !in evictors && event in place && place[event] == AtQueue
    ensures EvictorsOk(evictors[e := Popped(event)], place[event := AtEvictor(e)], number, evicted)
  {
    forall t | t in evictors ensures EvictorOk(t, evictors[t], place[event := AtEvictor(e)], number, evicted) {
      assert EvictorOk(t, evictors[t], place, number, evicted);
    }
  }

  lemma TakeEvictedKeeps(s: State, e: nat)
    requires Inv(s) && Enabled(s, TakeEvicted(e))
    ensures Inv(DoTakeEvicted(s, e))
    ensures s.evictors[e].event in s.unreserved
  {
    var event := s.evictors[e].event;
    VictimIsRegistered(s, e);
    NumbersMoved(s.admitted, s.admitting, s.pending, s.place, s.number, event, AtReserved(e));
    UnreservedTaken(s.unreserved, s.place, s.number, event, AtReserved(e));
    QueueElsewhere(s.queue, s.place, event, AtReserved(e));
    WorkersElsewhere(s.workers, s.place, s.number, s.delivered, event, AtReserved(e));
    EvictorsReserved(s.evictors, s.place, s.number, s.evicted, e);
    EvictedHandled(|s.admitted|, s.pending, s.evicted, s.delivered, s.number[event]);
    hide NumbersOk, UnreservedOk, QueueOk, WorkersOk, EvictorsOk, HandledOk;
  }

  lemma VictimIsRegistered(s: State, e: nat)
    requires Inv(s) && e in s.evictors && s.admitting.None? && !s.evictors[e].Reserved?
    ensures var event := s.evictors[e].event;
      event in s.unreserved && event in s.number && s.unreserved[event] == s.number[event] < |s.admitted|
      && event in s.place && s.place[event] == AtEvictor(e)
  {
    assert EvictorOk(e, s.evictors[e], s.place, s.number, s.evicted);
    hide WorkersOk, QueueOk, EvictorsOk, HandledOk;
  }

  lemma EvictorsReserved(evictors: map<nat, Evictor>, place: Places, number: NumberOf, evicted: set<Seq>, e: nat)
    requires EvictorsOk(evictors, place, number, evicted) && e in evictors && !evictors[e].Reserved?
    requires evictors[e].event in number
    ensures var event := evictors[e].event; var n := number[event];
      EvictorsOk(evictors[e := Reserved(event, n)], place[event := AtReserved(e)], number, evicted + {n})
  {
    var event := evictors[e].event;
    var n := number[event];
    assert EvictorOk(e, evictors[e], place, number, evicted);
    forall t | t in evictors && t != e ensures EvictorOk(t, evictors[t], place[event := AtReserved(e)], number, evicted + {n}) {
      assert EvictorOk(t, evictors[t], place, number, evicted);
    }
  }

  lemma EvictedHandled(admitted: nat, pending: set<Seq>, evicted: set<Seq>, delivered: seq<Slot>, n: Seq)
    requires HandledOk(admitted, pending, evicted, delivered) && n < admitted
    ensures HandledOk(admitted, pending, evicted + {n}, delivered)
  {
  }

  lemma ReservedIsNumbered(s: State, e: nat)
    requires Inv(s) && e in s.evictors && s.evictors[e].Reserved? && s.admitting.None?
    ensures var event := s.evictors[e].event; var n := s.evictors[e].n;
      && event in s.place && s.place[event] == AtReserved(e) && event in s.number && n in s.evicted
      && (forall m: Seq :: m in {n} <==>
            m < |s.admitted| && s.admitted[m] in {event} && s.admitted[m] in s.number && s.number[s.admitted[m]] == m)
  {
    assert EvictorOk(e, s.evictors[e], s.place, s.number, s.evicted);
    hide UnreservedOk, QueueOk, WorkersOk, EvictorsOk, HandledOk;
  }

  lemma CompleteEvictedKeeps(s: State, e: nat)
    requires Inv(s) && Enabled(s, CompleteEvicted(e))
    ensures Inv(DoCompleteEvicted(s, e, s.evictors[e].event, s.evictors[e].n))
  {
    hide NumbersOk, UnreservedOk, QueueOk, WorkersOk, EvictorsOk, HandledOk;
    var event, n := s.evictors[e].event, s.evictors[e].n;
    ReservedIsNumbered(s, e);
    NumbersGone(s.admitted, s.pending, s.place, s.number, {event}, {n});
    UnreservedGone(s.unreserved, s.place, s.number, {event});
    QueueGone(s.queue, s.place, {event});
    WorkersGone(s.workers, s.place, s.number, s.delivered, {event});
    HandledGone(|s.admitted|, s.pending, s.evicted, s.delivered, {n});
    EvictorsDone(s.evictors, s.place, s.number, s.evicted, e);
  }

  lemma EvictorsDone(evictors: map<nat, Evictor>, place: Places, number: NumberOf, evicted: set<Seq>, e: nat)
    requires EvictorsOk(evictors, place, number, evicted) && e in evictors
    ensures EvictorsOk(evictors - {e}, place - {evictors[e].event}, number - {evictors[e].event}, evicted)
  {
    var event := evictors[e].event;
    assert EvictorOk(e, evictors[e], place, number, evicted);
    forall t | t in evictors && t != e ensures EvictorOk(t, evictors[t], place - {event}, number - {event}, evicted) {
      assert EvictorOk(t, evictors[t], place, number, evicted);
    }
  }

  lemma RequestKeeps(s: State, request: Item)
    requires Inv(s) && Enabled(s, PutRequest(request))
    ensures Inv(Next(s, PutRequest(request)))
  {
    assert QueueOk(s.queue + [request], s.place);
    hide NumbersOk, UnreservedOk, QueueOk, WorkersOk, EvictorsOk, HandledOk;
  }

  lemma FinishKeeps(s: State, w: nat)
    requires Inv(s) && Enabled(s, Finish(w))
    ensures Inv(Next(s, Finish(w)))
  {
    assert forall x :: x in s.place ==> x.Event?;
    hide NumbersOk, UnreservedOk, QueueOk, WorkersOk, EvictorsOk, HandledOk;
    WorkersRequest(s.workers, s.place, s.number, s.delivered, w, None);
  }

  lemma AccountKeeps(s: State, e: nat)
    requires Inv(s) && Enabled(s, Account(e))
    ensures Inv(Next(s, Account(e)))
  {
    EvictorsAccounted(s.evictors, s.place, s.number, s.evicted, e);
    hide NumbersOk, UnreservedOk, QueueOk, WorkersOk, EvictorsOk, HandledOk;
  }

  lemma EvictorsAccounted(evictors: map<nat, Evictor>, place: Places, number: NumberOf, evicted: set<Seq>, e: nat)
    requires EvictorsOk(evictors, place, number, evicted) && e in evictors && evictors[e].Popped?
    ensures EvictorsOk(evictors[e := Accounted(evictors[e].event)], place, number, evicted)
  {
    var after := evictors[e := Accounted(evictors[e].event)];
    forall t | t in after ensures EvictorOk(t, after[t], place, number, evicted) {
      assert EvictorOk(t, evictors[t], place, number, evicted);
    }
  }

  /** Every action of every thread keeps the invariant. */
  lemma StepKeeps(s: State, a: Action)
    requires Inv(s) && Enabled(s, a)
    ensures Inv(Next(s, a))
  {
    hide Inv, IsVictim;
    match a {
      case Put(event) => PutKeeps(s, event);
      case Admit => AdmitKeeps(s, s.admitting.value);
      case PutRequest(request) => RequestKeeps(s, request);
      case Get(w) => GetKeeps(s, w);
      case Take(w) => TakeKeeps(s, w);
      case Deliver(w) => DeliverKeeps(s, w);
      case Complete(w) => CompleteKeeps(s, w);
      case Finish(w) => FinishKeeps(s, w);
      case Evict(e, k) => EvictKeeps(s, e, k);
      case Account(e) => AccountKeeps(s, e);
      case TakeEvicted(e) => TakeEvictedKeeps(s, e);
      case CompleteEvicted(e) => CompleteEvictedKeeps(s, e);
      case ReadTarget(f) => TargetKeeps(s, f);
    }
  }

  lemma TargetKeeps(s: State, f: nat)
    requires Inv(s)
    ensures Inv(s.(targets := s.targets[f := |s.admitted|]))
  {
    hide NumbersOk, UnreservedOk, QueueOk, WorkersOk, EvictorsOk, HandledOk;
  }

  // ---------------------------------------------------------------- runs

  ghost predicate Possible(s: State, run: seq<Action>)
    decreases |run|
  {
    run == [] || (Enabled(s, run[0]) && Possible(Next(s, run[0]), run[1..]))
  }

  ghost function After(s: State, run: seq<Action>): State
    requires Possible(s, run)
    decreases |run|
  {
    if run == [] then s else After(Next(s, run[0]), run[1..])
  }

  /** Safety over every interleaving of any number of emitters, workers, evictors and flushers. */
  lemma {:induction false} RunKeeps(s: State, run: seq<Action>)
    requires Inv(s) && Possible(s, run)
    ensures Inv(After(s, run))
    decreases |run|
  {
    hide Inv;
    if run != [] {
      StepKeeps(s, run[0]);
      RunKeeps(Next(s, run[0]), run[1..]);
    }
  }

  /** Where an admitted event is, as the code's own data says. */
  ghost predicate InFlight(s: State, e: Item, n: Seq) {
    || e in s.queue
    || (exists w: nat :: w < |s.workers| && (s.workers[w].hand == Some(e) || Slot(e, Some(n)) in s.workers[w].batch))
    || (exists t :: t in s.evictors && s.evictors[t].event == e)
  }

  /** A pending sequence is that of an event in the queue, in a worker's hand or batch, or in eviction. */
  lemma PendingIsInFlight(s: State, n: Seq)
    requires Inv(s) && n in s.pending
    ensures n < |s.admitted| && InFlight(s, s.admitted[n], n)
  {
    var e := s.admitted[n];
    assert e in s.place && s.number[e] == n;
    hide UnreservedOk, HandledOk, NumbersOk;
    match s.place[e] {
      case AtQueue => assert e in s.queue;
      case AtHand(w) => assert s.workers[w].hand == Some(e);
      case AtBatch(w) => assert Slot(e, Some(n)) in s.workers[w].batch;
      case AtEvictor(t) => assert t in s.evictors;
      case AtReserved(t) => assert t in s.evictors;
    }
  }

  /** And every admitted event so located is pending. */
  lemma InFlightIsPending(s: State, e: Item, n: Seq)
    requires Inv(s) && e.Event? && s.admitting != Some(e) && InFlight(s, e, n)
    requires e in s.number ==> n == s.number[e]
    ensures n in s.pending && e in s.number
  {
    assert e in s.place by { InFlightHasPlace(s, e, n); }
    hide UnreservedOk, HandledOk, QueueOk, WorkersOk, EvictorsOk;
  }

  lemma InFlightHasPlace(s: State, e: Item, n: Seq)
    requires Inv(s) && e.Event? && InFlight(s, e, n)
    ensures e in s.place
  {
    hide UnreservedOk, HandledOk, NumbersOk;
    if w: nat :| w < |s.workers| && (s.workers[w].hand == Some(e) || Slot(e, Some(n)) in s.workers[w].batch) {
      assert WorkerOk(w, s.workers[w], s.place, s.number, s.delivered);
    }
    if t :| t in s.evictors && s.evictors[t].event == e {
      assert EvictorOk(t, s.evictors[t], s.place, s.number, s.evicted);
    }
  }

  /** What reached the drains under a sequence is the event admitted under it. */
  ghost predicate DeliveredOk(admitted: seq<Item>, delivered: seq<Slot>) {
    forall x :: x in delivered ==> x.n.Some? && x.n.value < |admitted| && admitted[x.n.value] == x.event
  }

  lemma StepDelivers(s: State, a: Action)
    requires Inv(s) && Enabled(s, a) && DeliveredOk(s.admitted, s.delivered)
    ensures var t := Next(s, a); DeliveredOk(t.admitted, t.delivered) && s.admitted <= t.admitted
  {
    hide UnreservedOk, QueueOk, EvictorsOk, HandledOk, IsVictim;
    if a.Deliver? {
      assert WorkerOk(a.worker, s.workers[a.worker], s.place, s.number, s.delivered);
    }
    hide WorkersOk, NumbersOk;
  }

  lemma {:induction false} RunDelivers(s: State, run: seq<Action>)
    requires Inv(s) && Possible(s, run) && DeliveredOk(s.admitted, s.delivered)
    ensures var t := After(s, run); DeliveredOk(t.admitted, t.delivered) && s.admitted <= t.admitted
    decreases |run|
  {
    hide Inv, DeliveredOk, Enabled;
    if run != [] {
      StepKeeps(s, run[0]);
      StepDelivers(s, run[0]);
      RunDelivers(Next(s, run[0]), run[1..]);
    }
  }

  /** `flush` reads its target at `s`, other threads run, and it sees nothing pending below the target:
      every event admitted before the target was read has been handed to the drains, under its own
      sequence, or was evicted. */
  lemma FlushBarrier(capacity: nat, workers: nat, before: seq<Action>, f: nat, between: seq<Action>)
    requires Possible(Start(capacity, workers), before)
    requires var s := After(Start(capacity, workers), before);
      Enabled(s, ReadTarget(f)) && Possible(Next(s, ReadTarget(f)), between)
    requires ReadTarget(f) !in between
    requires var t := After(Next(After(Start(capacity, workers), before), ReadTarget(f)), between);
      f in t.targets ==> forall n :: n in t.pending ==> n >= t.targets[f]
    ensures var s := After(Start(capacity, workers), before);
      var t := After(Next(s, ReadTarget(f)), between);
      && s.admitted <= t.admitted
      && forall n: Seq :: n < |s.admitted| ==>
           n in t.evicted || exists x :: x in t.delivered && x.n == Some(n) && x.event == s.admitted[n]
  {
    hide Inv, Enabled, DeliveredOk;
    var s0 := Start(capacity, workers);
    StartInv(capacity, workers);
    NothingDelivered(capacity, workers);
    RunKeeps(s0, before);
    RunDelivers(s0, before);
    var s := After(s0, before);
    var r := Next(s, ReadTarget(f));
    StepKeeps(s, ReadTarget(f));
    RunKeeps(r, between);
    RunDelivers(r, between);
    TargetStays(r, between, f);
    var t := After(r, between);
    forall n: Seq | n < |s.admitted|
      ensures n in t.evicted || exists x :: x in t.delivered && x.n == Some(n) && x.event == s.admitted[n]
    {
      BelowTarget(t, n);
    }
  }

  lemma NothingDelivered(capacity: nat, workers: nat)
    ensures DeliveredOk(Start(capacity, workers).admitted, Start(capacity, workers).delivered)
  {
  }

  lemma BelowTarget(t: State, n: Seq)
    requires Inv(t) && DeliveredOk(t.admitted, t.delivered) && n < |t.admitted| && n !in t.pending
    ensures n in t.evicted || exists x :: x in t.delivered && x.n == Some(n) && x.event == t.admitted[n]
  {
    hide NumbersOk, UnreservedOk, QueueOk, WorkersOk, EvictorsOk;
    if n !in t.evicted {
      assert n in Numbers(t.delivered);
      var x :| x in t.delivered && x.n == Some(n);
    }
  }

  lemma {:induction false} TargetStays(s: State, run: seq<Action>, f: nat)
    requires Possible(s, run) && ReadTarget(f) !in run && f in s.targets
    ensures f in After(s, run).targets && After(s, run).targets[f] == s.targets[f]
    decreases |run|
  {
    if run != [] {
      assert run[0] in run && forall a :: a in run[1..] ==> a in run;
      TargetStep(s, run[0], f);
      TargetStays(Next(s, run[0]), run[1..], f);
    }
  }

  lemma TargetStep(s: State, a: Action, f: nat)
    requires Enabled(s, a) && a != ReadTarget(f) && f in s.targets
    ensures f in Next(s, a).targets && Next(s, a).targets[f] == s.targets[f]
  {
    hide IsVictim;
  }
}

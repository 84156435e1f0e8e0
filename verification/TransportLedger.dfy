/** The ledger of the worker backend over every interleaving: the emitters' side of `emit`, drains that may fail,
    and the counters, on top of the concurrent machine of `Transport`.

    Emitted events are distinct.  `phases` is where each emitter stands within `emit`, `progress` how many drains
    a worker has handed its batch to.  Counters are incremented in the critical section or step they belong to.
 */
module TransportLedger {
  import opened Keys
  import Q = EvictQueue
  import T = Transport

  type Item = Q.Item
  type Places = Q.Places

  /** The emitter's next step: a first attempt to enqueue, what to do when the queue is full, an eviction in
      progress, a second attempt, giving up. */
  datatype Phase = Trying(event: Item) | Full(event: Item) | Evicting(event: Item) | Retrying(event: Item) | Failing(event: Item)

  datatype Counters = Counters(enqueued: nat, emitted: nat, spooled: nat, errors: nat, debug: nat, telemetry: nat)

  /** One drain was handed one batch; `offers` is what its spool was offered after a failure. */
  datatype Handover = Handover(drain: nat, batch: seq<Item>, outcome: Q.Outcome, offers: seq<Q.Offer>)

  datatype Config = Config(drains: seq<Q.Drain>, dropOldest: bool)

  /** `places` and `told`, the place of each emitted event and what its `emit` returned, are history. */
  datatype Ledger = Ledger(
    base: T.State,
    phases: map<nat, Phase>,
    progress: map<nat, nat>,
    places: Places,
    told: map<Item, Q.EmitResult>,
    handovers: seq<Handover>,
    counters: Counters)

  datatype Action =
    | Call(emitter: nat, event: Item)
    | PutEvent(emitter: nat)
    | PutFails(emitter: nat)
    | SpoolOwn(emitter: nat, accepts: bool)
    | DropOwn(emitter: nat)
    | EvictFor(emitter: nat, index: nat)
    | NoVictimFor(emitter: nat)
    | AccountFor(emitter: nat, accepts: bool)
    | Resume(emitter: nat)
    | HandOver(worker: nat, outcome: Q.Outcome)
    | Delivered(worker: nat)
    | Step(action: T.Action)

  function BatchOf(s: T.State, w: nat): seq<Item>
    requires w < |s.workers|
  {
    seq(|s.workers[w].batch|, i requires 0 <= i < |s.workers[w].batch| => s.workers[w].batch[i].event)
  }

  /** Steps of the machine that the ledger does not refine. */
  predicate Plain(a: T.Action) {
    a.Admit? || a.PutRequest? || a.Get? || a.Take? || a.Complete? || a.Finish? || a.TakeEvicted? || a.CompleteEvicted? || a.ReadTarget?
  }

  predicate Enabled(c: Config, l: Ledger, a: Action) {
    match a
    case Call(t, event) => t !in l.phases && t !in l.base.evictors && event.Event? && event !in l.places
    case PutEvent(t) =>
      t in l.phases && (l.phases[t].Trying? || l.phases[t].Retrying?) && T.Enabled(l.base, T.Put(l.phases[t].event))
    case PutFails(t) =>
      t in l.phases && (l.phases[t].Trying? || l.phases[t].Retrying?) && l.base.admitting.None? && |l.base.queue| >= l.base.capacity
    case SpoolOwn(t, _) =>
      t in l.phases && (l.phases[t].Full? || l.phases[t].Failing?) && Q.CriticalEvent(l.phases[t].event)
    case DropOwn(t) =>
      t in l.phases && Q.Ordinary(l.phases[t].event) && (l.phases[t].Failing? || (l.phases[t].Full? && !c.dropOldest))
    case EvictFor(t, k) =>
      t in l.phases && l.phases[t].Full? && Q.Ordinary(l.phases[t].event) && c.dropOldest && T.Enabled(l.base, T.Evict(t, k))
    case NoVictimFor(t) =>
      t in l.phases && l.phases[t].Full? && Q.Ordinary(l.phases[t].event) && c.dropOldest && Q.NoVictim(l.base.queue)
    // An evictor holds an event, never a control request.
    case AccountFor(t, _) =>
      t in l.phases && l.phases[t].Evicting? && T.Enabled(l.base, T.Account(t)) && l.base.evictors[t].event.Event?
    case Resume(t) => t in l.phases && l.phases[t].Evicting? && t !in l.base.evictors
    case HandOver(w, _) => CanHandOver(c, l, w)
    case Delivered(w) => CanDeliver(c, l, w)
    case Step(b) => Plain(b) && T.Enabled(l.base, b) && (b.Get? ==> b.worker !in l.progress)
  }

  /** `deliver` goes through the drains in order, with the same batch. */
  predicate CanHandOver(c: Config, l: Ledger, w: nat) {
    && w < |l.base.workers| && !l.base.workers[w].delivered && !T.HoldsEvent(l.base.workers[w])
    && l.base.workers[w].batch != [] && Progress(l, w) < |c.drains|
  }

  predicate CanDeliver(c: Config, l: Ledger, w: nat) {
    && w < |l.base.workers| && !l.base.workers[w].delivered && !T.HoldsEvent(l.base.workers[w])
    && (l.base.workers[w].batch != [] ==> Progress(l, w) == |c.drains|)
  }

  function Progress(l: Ledger, w: nat): nat {
    if w in l.progress then l.progress[w] else 0
  }

  /** The counter that an event moves which is spooled or dropped. */
  function Count(k: Counters, event: Item, accepts: bool): Counters {
    if Q.CriticalEvent(event) then
      if accepts then k.(spooled := k.spooled + 1) else k.(errors := k.errors + 1)
    else if Q.IsDebug(event) then k.(debug := k.debug + 1)
    else k.(telemetry := k.telemetry + 1)
  }

  /** `deliver` on one drain. */
  function HandoverOf(c: Config, l: Ledger, w: nat, outcome: Q.Outcome): Handover
    requires w < |l.base.workers| && Progress(l, w) < |c.drains|
  {
    var d, batch := Progress(l, w), BatchOf(l.base, w);
    Handover(d, batch, outcome, Q.DrainOffers(c.drains[d], outcome, batch))
  }

  function DoHandOver(c: Config, l: Ledger, w: nat, outcome: Q.Outcome): Ledger
    requires w < |l.base.workers| && Progress(l, w) < |c.drains|
  {
    var d, k := Progress(l, w), l.counters;
    var h := HandoverOf(c, l, w, outcome);
    l.(progress := l.progress[w := d + 1], handovers := l.handovers + [h],
       counters := k.(emitted := k.emitted + (if outcome.Sent? then |h.batch| else 0),
                      spooled := k.spooled + Q.Answered(h.offers, true),
                      errors := k.errors + Q.Answered(h.offers, false)))
  }

  function DoDelivered(l: Ledger, w: nat): Ledger
    requires w < |l.base.workers|
  {
    var batch := BatchOf(l.base, w);
    l.(base := T.DoDeliver(l.base, w), progress := l.progress - {w},
       places := Handed(l.places, batch))
  }

  function DoCall(l: Ledger, t: nat, event: Item): Ledger {
    l.(phases := l.phases[t := Trying(event)], places := l.places[event := Q.WithEmitter])
  }

  function DoPutEvent(l: Ledger, t: nat): Ledger
    requires t in l.phases
  {
    var event := l.phases[t].event;
    l.(base := T.DoPut(l.base, event), phases := l.phases - {t}, places := l.places[event := Q.InQueue])
  }

  /** `emit` gives up on its own event: `_spool_critical` or `_drop_noncritical`. */
  function DoOwn(l: Ledger, t: nat, accepts: bool, r: Q.EmitResult): Ledger
    requires t in l.phases && l.phases[t].event.Event?
  {
    var event := l.phases[t].event;
    l.(phases := l.phases - {t}, places := l.places[event := Q.Final(event, accepts)], told := l.told[event := r],
       counters := Count(l.counters, event, accepts))
  }

  function DoEvictFor(l: Ledger, t: nat, k: nat): Ledger
    requires t in l.phases && k < |l.base.queue|
  {
    l.(base := T.DoEvict(l.base, t, k), phases := l.phases[t := Evicting(l.phases[t].event)],
       places := l.places[l.base.queue[k] := Q.InTransit])
  }

  function Accounted(s: T.State, t: nat): T.State
    requires t in s.evictors
  {
    s.(evictors := s.evictors[t := T.Accounted(s.evictors[t].event)])
  }

  function DoAccount(l: Ledger, t: nat, accepts: bool): Ledger
    requires t in l.base.evictors && l.base.evictors[t].event.Event?
  {
    var victim := l.base.evictors[t].event;
    l.(base := Accounted(l.base, t), places := l.places[victim := Q.Final(victim, accepts)],
       counters := Count(l.counters, victim, accepts))
  }

  function DoGet(l: Ledger, w: nat): Ledger
    requires w < |l.base.workers| && l.base.queue != []
  {
    var item := l.base.queue[0];
    l.(base := T.DoGet(l.base, w, item), places := if item.Event? then l.places[item := Q.WithWorker] else l.places)
  }

  function DoAdmit(l: Ledger, event: Item): Ledger {
    l.(base := T.DoAdmit(l.base, event), told := l.told[event := Q.Enqueued],
       counters := l.counters.(enqueued := l.counters.enqueued + 1))
  }

  function DoStep(l: Ledger, b: T.Action): Ledger
    requires T.Enabled(l.base, b)
  {
    match b
    case Admit => DoAdmit(l, l.base.admitting.value)
    case Get(w) => DoGet(l, w)
    case _ => l.(base := T.Next(l.base, b))
  }

  function Next(c: Config, l: Ledger, a: Action): Ledger
    requires Enabled(c, l, a)
  {
    match a
    case Call(t, event) => DoCall(l, t, event)
    case PutEvent(t) => DoPutEvent(l, t)
    case PutFails(t) =>
      var event := l.phases[t].event;
      l.(phases := l.phases[t := if l.phases[t].Trying? then Full(event) else Failing(event)])
    case SpoolOwn(t, accepts) => DoOwn(l, t, accepts, if accepts then Q.Spooled else Q.SpoolRefused)
    case DropOwn(t) => DoOwn(l, t, false, Q.QueueFull)
    case EvictFor(t, k) => DoEvictFor(l, t, k)
    case NoVictimFor(t) => l.(phases := l.phases[t := Retrying(l.phases[t].event)])
    case AccountFor(t, accepts) => DoAccount(l, t, accepts)
    case Resume(t) => l.(phases := l.phases[t := Retrying(l.phases[t].event)])
    case HandOver(w, outcome) => DoHandOver(c, l, w, outcome)
    case Delivered(w) => DoDelivered(l, w)
    case Step(b) => DoStep(l, b)
  }

  function Start(capacity: nat, workers: nat): Ledger {
    Ledger(T.Start(capacity, workers), map[], map[], map[], map[], [], Counters(0, 0, 0, 0, 0, 0))
  }

  // ---------------------------------------------------------------- the invariant

  /** Each emitter holds one event of its own. */
  ghost predicate PhasesOk(phases: map<nat, Phase>, places: Places) {
    && (forall t :: t in phases ==> phases[t].event.Event? && phases[t].event in places && places[phases[t].event].WithEmitter?)
    && (forall t, u :: t in phases && u in phases && phases[t].event == phases[u].event ==> t == u)
    && (forall x :: x in places && places[x].WithEmitter? ==> Held(x, phases))
  }

  ghost predicate Held(x: Item, phases: map<nat, Phase>) {
    exists t :: t in phases && phases[t].event == x
  }

  /** Where the ledger has an event that the machine has at `p`. */
  predicate Fits(p: T.Spot, q: Q.Place, workers: seq<T.Worker>, evictors: map<nat, T.Evictor>) {
    match p
    case AtQueue => q.InQueue?
    case AtHand(w) => q.WithWorker?
    case AtBatch(w) => w < |workers| && q == if workers[w].delivered then Q.Delivered else Q.WithWorker
    case AtEvictor(t) => t in evictors && if evictors[t].Popped? then q.InTransit? else Settled(q)
    case AtReserved(t) => Settled(q)
  }

  predicate Settled(q: Q.Place) {
    q.InSpool? || q.Refused? || q.Dropped?
  }

  predicate Flying(q: Q.Place) {
    q.InQueue? || q.InTransit? || q.WithWorker?
  }

  ghost predicate FlightOk(place: map<Item, T.Spot>, workers: seq<T.Worker>, evictors: map<nat, T.Evictor>, places: Places) {
    && (forall x :: x in place ==> x in places && Fits(place[x], places[x], workers, evictors))
    && (forall x :: x in places && Flying(places[x]) ==> x in place)
  }

  ghost predicate ToldOk(told: map<Item, Q.EmitResult>, places: Places, admitting: Option<Item>) {
    && (forall x :: x in told ==> x in places && Agrees(told[x], places[x]) && admitting != Some(x))
    && (forall x :: x in places ==> places[x].WithEmitter? || x in told || admitting == Some(x))
  }

  /** What `emit` returned and where the event is, at any later time. */
  predicate Agrees(r: Q.EmitResult, q: Q.Place) {
    match r
    case Enqueued => !q.WithEmitter?
    case Spooled => q.InSpool?
    case SpoolRefused => q.Refused?
    case QueueFull => q.Dropped?
  }

  function Emitted(hs: seq<Handover>): nat {
    if hs == [] then 0
    else Emitted(hs[..|hs| - 1]) + if hs[|hs| - 1].outcome.Sent? then |hs[|hs| - 1].batch| else 0
  }

  /** The answers of the drains' spools. */
  function SpoolAnswers(hs: seq<Handover>, accepted: bool): nat {
    if hs == [] then 0
    else SpoolAnswers(hs[..|hs| - 1], accepted) + Q.Answered(hs[|hs| - 1].offers, accepted)
  }

  /** After each handover its drain's spool was offered exactly what it should be. */
  ghost predicate OffersOk(c: Config, hs: seq<Handover>) {
    forall i :: 0 <= i < |hs| ==>
      hs[i].drain < |c.drains| && Q.RightlyOffered(c.drains[hs[i].drain], hs[i].outcome, hs[i].batch, hs[i].offers)
  }

  /** Every counter is exact: events spooled or refused by the emitting side plus those of failed handovers, and
      events dropped, by kind. */
  ghost predicate CountersOk(places: Places, hs: seq<Handover>, admitted: nat, k: Counters) {
    && k.enqueued == admitted
    && k.emitted == Emitted(hs)
    && k.spooled >= SpoolAnswers(hs, true) && k.errors >= SpoolAnswers(hs, false)
    && Q.Counted(places, k.spooled - SpoolAnswers(hs, true), k.errors - SpoolAnswers(hs, false), k.debug, k.telemetry)
  }

  /** How often drain `d` was handed `x`. */
  function Times(hs: seq<Handover>, d: nat, x: Item): nat {
    if hs == [] then 0
    else
      var h := hs[|hs| - 1];
      Times(hs[..|hs| - 1], d, x) + if h.drain == d && x in h.batch then 1 else 0
  }

  /** How many drains have been handed the event so far, while it is in a batch. */
  function Done(x: Item, place: map<Item, T.Spot>, progress: map<nat, nat>): nat {
    if x in place && place[x].AtBatch? && place[x].worker in progress then progress[place[x].worker] else 0
  }

  function Due(x: Item, d: nat, place: map<Item, T.Spot>, progress: map<nat, nat>, places: Places): nat {
    if x in places && places[x].Delivered? then 1 else if d < Done(x, place, progress) then 1 else 0
  }

  /** Each drain has been handed each delivered event exactly once, and no other event except those of the
      batches being handed over. */
  ghost predicate HandedOk(n: nat, hs: seq<Handover>, place: map<Item, T.Spot>, progress: map<nat, nat>, places: Places) {
    forall x, d :: 0 <= d < n ==> Times(hs, d, x) == Due(x, d, place, progress, places)
  }

  ghost predicate ProgressOk(n: nat, workers: seq<T.Worker>, progress: map<nat, nat>) {
    forall w :: w in progress ==>
      w < |workers| && progress[w] <= n && !workers[w].delivered && !T.HoldsEvent(workers[w]) && workers[w].batch != []
  }

  /** Emitters, the machine and the ledger agree on where events are, and on what emitters were told. */
  ghost predicate Emitters(l: Ledger) {
    && PhasesOk(l.phases, l.places)
    && FlightOk(l.base.place, l.base.workers, l.base.evictors, l.places)
    && ToldOk(l.told, l.places, l.base.admitting)
  }

  ghost predicate Accounts(c: Config, l: Ledger) {
    && Q.Lawful(l.places)
    && CountersOk(l.places, l.handovers, |l.base.admitted|, l.counters)
    && OffersOk(c, l.handovers)
  }

  ghost predicate Drains(c: Config, l: Ledger) {
    && HandedOk(|c.drains|, l.handovers, l.base.place, l.progress, l.places)
    && ProgressOk(|c.drains|, l.base.workers, l.progress)
  }

  ghost predicate Inv(c: Config, l: Ledger) {
    T.Inv(l.base) && Emitters(l) && Accounts(c, l) && Drains(c, l)
  }

  lemma StartInv(c: Config, capacity: nat, workers: nat)
    ensures Inv(c, Start(capacity, workers))
  {
    T.StartInv(capacity, workers);
    hide T.Inv;
    NothingCounted();
  }

  lemma NothingCounted()
    ensures Q.Counted(map[], 0, 0, 0, 0)
  {
    assert Q.At(map[], Q.InSpool) == Q.At(map[], Q.Refused) == Q.At(map[], Q.Dropped) == Q.DebugOf(Q.At(map[], Q.Dropped)) == {};
  }

  // ---------------------------------------------------------------- moving one event

  lemma FlightMoved(place: map<Item, T.Spot>, workers: seq<T.Worker>, evictors: map<nat, T.Evictor>, places: Places,
                    x: Item, p: T.Spot, q: Q.Place)
    requires FlightOk(place, workers, evictors, places) && Fits(p, q, workers, evictors)
    ensures FlightOk(place[x := p], workers, evictors, places[x := q])
  {
  }

  /** An event that is not in flight changes its place. */
  lemma FlightElsewhere(place: map<Item, T.Spot>, workers: seq<T.Worker>, evictors: map<nat, T.Evictor>, places: Places, x: Item, q: Q.Place)
    requires FlightOk(place, workers, evictors, places) && x !in place && !Flying(q)
    ensures FlightOk(place, workers, evictors, places[x := q])
  {
  }

  /** Only the delivered flags of workers matter. */
  lemma FlightWorkers(place: map<Item, T.Spot>, workers: seq<T.Worker>, evictors: map<nat, T.Evictor>, places: Places, now: seq<T.Worker>)
    requires FlightOk(place, workers, evictors, places) && |now| == |workers|
    requires forall w :: 0 <= w < |now| ==> now[w].delivered == workers[w].delivered
    ensures FlightOk(place, now, evictors, places)
  {
  }

  lemma PhasesWithout(phases: map<nat, Phase>, places: Places, t: nat, q: Q.Place)
    requires PhasesOk(phases, places) && t in phases && !q.WithEmitter?
    ensures PhasesOk(phases - {t}, places[phases[t].event := q])
  {
    var rest, now := phases - {t}, places[phases[t].event := q];
    forall x | x in now && now[x].WithEmitter? ensures Held(x, rest) {
      assert Held(x, phases);
      var u :| u in phases && phases[u].event == x;
      assert u in rest && rest[u].event == x;
    }
  }

  lemma PhasesAgain(phases: map<nat, Phase>, places: Places, t: nat, f: Phase)
    requires PhasesOk(phases, places) && t in phases && f.event == phases[t].event
    ensures PhasesOk(phases[t := f], places)
  {
    forall x | x in places && places[x].WithEmitter? ensures Held(x, phases[t := f]) {
      var u :| u in phases && phases[u].event == x;
      assert u in phases[t := f] && phases[t := f][u].event == x;
    }
  }

  /** An event that no emitter holds changes its place. */
  lemma PhasesElsewhere(phases: map<nat, Phase>, places: Places, x: Item, q: Q.Place)
    requires PhasesOk(phases, places) && x in places && !places[x].WithEmitter? && !q.WithEmitter?
    ensures PhasesOk(phases, places[x := q])
  {
    forall y | y in places[x := q] && places[x := q][y].WithEmitter? ensures Held(y, phases) {
      assert Held(y, phases);
    }
  }

  lemma PhasesCall(phases: map<nat, Phase>, places: Places, t: nat, x: Item)
    requires PhasesOk(phases, places) && t !in phases && x.Event? && x !in places
    ensures PhasesOk(phases[t := Trying(x)], places[x := Q.WithEmitter])
  {
    var now := phases[t := Trying(x)];
    forall y | y in places[x := Q.WithEmitter] && places[x := Q.WithEmitter][y].WithEmitter? ensures Held(y, now) {
      if y == x {
        assert t in now && now[t].event == x;
      } else {
        assert Held(y, phases);
        var u :| u in phases && phases[u].event == y;
        assert u in now && now[u].event == y;
      }
    }
  }

  /** No drain sees the difference. */
  lemma HandedSame(n: nat, hs: seq<Handover>, place: map<Item, T.Spot>, progress: map<nat, nat>, places: Places,
                   place1: map<Item, T.Spot>, progress1: map<nat, nat>, places1: Places)
    requires HandedOk(n, hs, place, progress, places)
    requires forall x, d :: 0 <= d < n ==> Due(x, d, place1, progress1, places1) == Due(x, d, place, progress, places)
    ensures HandedOk(n, hs, place1, progress1, places1)
  {
  }

  predicate Batched(p: T.Spot) { p.AtBatch? }

  lemma HandedElsewhere(n: nat, hs: seq<Handover>, place: map<Item, T.Spot>, progress: map<nat, nat>, places: Places, x: Item, q: Q.Place)
    requires HandedOk(n, hs, place, progress, places) && !q.Delivered? && (x in places ==> !places[x].Delivered?)
    ensures HandedOk(n, hs, place, progress, places[x := q])
  {
    HandedSame(n, hs, place, progress, places, place, progress, places[x := q]);
  }

  lemma HandedMoved(n: nat, hs: seq<Handover>, place: map<Item, T.Spot>, progress: map<nat, nat>, places: Places, x: Item, p: T.Spot)
    requires HandedOk(n, hs, place, progress, places)
    requires x in place && Batched(place[x]) ==> place[x].worker !in progress
    requires Batched(p) ==> p.worker !in progress
    ensures HandedOk(n, hs, place[x := p], progress, places)
  {
    HandedSame(n, hs, place, progress, places, place[x := p], progress, places);
  }

  lemma LawfulMoved(places: Places, x: Item, q: Q.Place)
    requires Q.Lawful(places)
    requires q.Dropped? ==> Q.Ordinary(x)
    requires q.InSpool? || q.Refused? ==> Q.CriticalEvent(x)
    ensures Q.Lawful(places[x := q])
  {
  }

  lemma CountersMoved(places: Places, hs: seq<Handover>, admitted: nat, k: Counters, x: Item, q: Q.Place)
    requires CountersOk(places, hs, admitted, k) && Q.Lawful(places) && x.Event?
    requires Q.Uncounted(q) && (x in places ==> Q.Uncounted(places[x]))
    ensures CountersOk(places[x := q], hs, admitted, k)
  {
    hide Q.Counted, Q.Lawful;
    Q.Moved(places, x, q, k.spooled - SpoolAnswers(hs, true), k.errors - SpoolAnswers(hs, false), k.debug, k.telemetry);
  }

  lemma CountersSettle(places: Places, hs: seq<Handover>, admitted: nat, k: Counters, x: Item, accepts: bool)
    requires CountersOk(places, hs, admitted, k) && Q.Lawful(places) && x.Event?
    requires x in places ==> Q.Uncounted(places[x])
    ensures CountersOk(places[x := Q.Final(x, accepts)], hs, admitted,
                       Count(k, x, accepts))
    ensures Q.Lawful(places[x := Q.Final(x, accepts)])
  {
    hide Q.Counted, Q.Lawful;
    Q.Settle(places, x, Q.Final(x, accepts), k.spooled - SpoolAnswers(hs, true), k.errors - SpoolAnswers(hs, false), k.debug, k.telemetry);
  }

  // ---------------------------------------------------------------- the emitters

  lemma CallKeeps(c: Config, l: Ledger, t: nat, event: Item)
    requires Inv(c, l) && t !in l.phases && event.Event? && event !in l.places
    ensures Inv(c, DoCall(l, t, event))
  {
    hide T.Inv;
    CallEmitters(l, t, event);
    CallAccounts(c, l, t, event);
    hide Emitters, Accounts, HandedOk, ProgressOk;
    HandedElsewhere(|c.drains|, l.handovers, l.base.place, l.progress, l.places, event, Q.WithEmitter);
  }

  lemma CallEmitters(l: Ledger, t: nat, event: Item)
    requires Emitters(l) && t !in l.phases && event.Event? && event !in l.places
    ensures Emitters(DoCall(l, t, event))
  {
    assert event !in l.base.place;
    CallTold(l.told, l.places, l.base.admitting, event);
    hide PhasesOk, FlightOk, ToldOk;
    PhasesCall(l.phases, l.places, t, event);
    FlightElsewhere(l.base.place, l.base.workers, l.base.evictors, l.places, event, Q.WithEmitter);
  }

  lemma CallTold(told: map<Item, Q.EmitResult>, places: Places, admitting: Option<Item>, x: Item)
    requires ToldOk(told, places, admitting) && x !in places
    ensures ToldOk(told, places[x := Q.WithEmitter], admitting)
  {
  }

  lemma CallAccounts(c: Config, l: Ledger, t: nat, event: Item)
    requires Accounts(c, l) && event.Event? && event !in l.places
    ensures Accounts(c, DoCall(l, t, event))
  {
    LawfulMoved(l.places, event, Q.WithEmitter);
    hide CountersOk, Q.Lawful;
    CountersMoved(l.places, l.handovers, |l.base.admitted|, l.counters, event, Q.WithEmitter);
  }

  lemma HeldIsAside(l: Ledger, t: nat)
    requires PhasesOk(l.phases, l.places) && FlightOk(l.base.place, l.base.workers, l.base.evictors, l.places) && t in l.phases
    ensures var event := l.phases[t].event;
      event.Event? && event in l.places && l.places[event].WithEmitter? && event !in l.base.place
  {
  }

  lemma PutEventKeeps(c: Config, l: Ledger, t: nat)
    requires Inv(c, l) && t in l.phases && T.Enabled(l.base, T.Put(l.phases[t].event))
    ensures Inv(c, DoPutEvent(l, t))
  {
    hide T.Inv, Accounts, Drains, Emitters;
    T.PutKeeps(l.base, l.phases[t].event);
    PutEmitters(l, t);
    PutAccounts(c, l, t);
    PutDrains(c, l, t);
  }

  lemma PutEmitters(l: Ledger, t: nat)
    requires Emitters(l) && t in l.phases && l.base.admitting.None?
    ensures Emitters(DoPutEvent(l, t))
  {
    var event := l.phases[t].event;
    HeldIsAside(l, t);
    PutTold(l.told, l.places, event);
    hide PhasesOk, FlightOk, ToldOk;
    PhasesWithout(l.phases, l.places, t, Q.InQueue);
    FlightMoved(l.base.place, l.base.workers, l.base.evictors, l.places, event, T.AtQueue, Q.InQueue);
  }

  lemma PutTold(told: map<Item, Q.EmitResult>, places: Places, x: Item)
    requires ToldOk(told, places, None) && x in places && places[x].WithEmitter?
    ensures ToldOk(told, places[x := Q.InQueue], Some(x))
  {
  }

  lemma PutAccounts(c: Config, l: Ledger, t: nat)
    requires Emitters(l) && Accounts(c, l) && t in l.phases
    ensures Accounts(c, DoPutEvent(l, t))
  {
    var event := l.phases[t].event;
    HeldIsAside(l, t);
    LawfulMoved(l.places, event, Q.InQueue);
    hide Emitters, CountersOk, Q.Lawful;
    CountersMoved(l.places, l.handovers, |l.base.admitted|, l.counters, event, Q.InQueue);
  }

  lemma PutDrains(c: Config, l: Ledger, t: nat)
    requires Emitters(l) && Drains(c, l) && t in l.phases
    ensures Drains(c, DoPutEvent(l, t))
  {
    var event := l.phases[t].event;
    HeldIsAside(l, t);
    hide Emitters, HandedOk, ProgressOk;
    HandedElsewhere(|c.drains|, l.handovers, l.base.place, l.progress, l.places, event, Q.InQueue);
    HandedMoved(|c.drains|, l.handovers, l.base.place, l.progress, l.places[event := Q.InQueue], event, T.AtQueue);
  }

  lemma PhaseKeeps(c: Config, l: Ledger, t: nat, f: Phase)
    requires Inv(c, l) && t in l.phases && f.event == l.phases[t].event
    ensures Inv(c, l.(phases := l.phases[t := f]))
  {
    hide T.Inv, FlightOk, CountersOk, HandedOk, ProgressOk, Q.Lawful, PhasesOk, ToldOk;
    PhasesAgain(l.phases, l.places, t, f);
  }

  lemma OwnKeeps(c: Config, l: Ledger, t: nat, accepts: bool, r: Q.EmitResult)
    requires Inv(c, l) && t in l.phases && l.phases[t].event.Event?
    requires OwnResult(l.phases[t].event, accepts, r)
    ensures Inv(c, DoOwn(l, t, accepts, r))
  {
    hide T.Inv, Accounts, Drains, Emitters;
    OwnEmitters(l, t, accepts, r);
    OwnAccounts(c, l, t, accepts, r);
    OwnDrains(c, l, t, accepts, r);
  }

  predicate OwnResult(event: Item, accepts: bool, r: Q.EmitResult) {
    r == if Q.CriticalEvent(event) then (if accepts then Q.Spooled else Q.SpoolRefused) else Q.QueueFull
  }

  lemma OwnEmitters(l: Ledger, t: nat, accepts: bool, r: Q.EmitResult)
    requires T.Inv(l.base) && Emitters(l) && t in l.phases && l.phases[t].event.Event?
    requires OwnResult(l.phases[t].event, accepts, r)
    ensures Emitters(DoOwn(l, t, accepts, r))
  {
    var event := l.phases[t].event;
    HeldIsAside(l, t);
    NotAdmitting(l.base, event);
    OwnTold(l.told, l.places, l.base.admitting, event, accepts, r);
    hide T.Inv, PhasesOk, FlightOk, ToldOk, Count;
    PhasesWithout(l.phases, l.places, t, Q.Final(event, accepts));
    FlightElsewhere(l.base.place, l.base.workers, l.base.evictors, l.places, event, Q.Final(event, accepts));
  }

  lemma OwnTold(told: map<Item, Q.EmitResult>, places: Places, admitting: Option<Item>, x: Item, accepts: bool, r: Q.EmitResult)
    requires ToldOk(told, places, admitting) && x in places && x.Event? && admitting != Some(x) && OwnResult(x, accepts, r)
    ensures ToldOk(told[x := r], places[x := Q.Final(x, accepts)], admitting)
  {
  }

  lemma OwnAccounts(c: Config, l: Ledger, t: nat, accepts: bool, r: Q.EmitResult)
    requires Emitters(l) && Accounts(c, l) && t in l.phases && l.phases[t].event.Event?
    ensures Accounts(c, DoOwn(l, t, accepts, r))
  {
    HeldIsAside(l, t);
    hide Emitters, CountersOk, Q.Lawful, Count;
    CountersSettle(l.places, l.handovers, |l.base.admitted|, l.counters, l.phases[t].event, accepts);
  }

  lemma OwnDrains(c: Config, l: Ledger, t: nat, accepts: bool, r: Q.EmitResult)
    requires Emitters(l) && Drains(c, l) && t in l.phases && l.phases[t].event.Event?
    ensures Drains(c, DoOwn(l, t, accepts, r))
  {
    var event := l.phases[t].event;
    HeldIsAside(l, t);
    hide Emitters, HandedOk, ProgressOk, Count;
    HandedElsewhere(|c.drains|, l.handovers, l.base.place, l.progress, l.places, event, Q.Final(event, accepts));
  }

  lemma NotAdmitting(s: T.State, x: Item)
    requires T.Inv(s) && x !in s.place
    ensures s.admitting != Some(x)
  {
    hide T.UnreservedOk, T.QueueOk, T.WorkersOk, T.EvictorsOk, T.HandledOk;
  }

  // ---------------------------------------------------------------- eviction

  lemma EvictForKeeps(c: Config, l: Ledger, t: nat, k: nat)
    requires Inv(c, l) && t in l.phases && T.Enabled(l.base, T.Evict(t, k))
    ensures Inv(c, DoEvictFor(l, t, k))
  {
    assert k < |l.base.queue| && l.base.queue[k].Event? && t !in l.base.evictors;
    hide T.Inv, T.Enabled, T.DoEvict, Q.IsVictim, Accounts, Drains, Emitters;
    T.EvictKeeps(l.base, t, k);
    EvictEmitters(l, t, k);
    EvictAccounts(c, l, t, k);
    EvictDrains(c, l, t, k);
  }

  lemma EvictEmitters(l: Ledger, t: nat, k: nat)
    requires T.Inv(l.base) && Emitters(l) && t in l.phases && t !in l.base.evictors && k < |l.base.queue| && l.base.queue[k].Event?
    ensures Emitters(DoEvictFor(l, t, k))
  {
    var victim, mine := l.base.queue[k], l.phases[t].event;
    QueuedIs(l, k);
    HeldIsAside(l, t);
    hide T.Inv, PhasesOk, FlightOk, ToldOk;
    PhasesElsewhere(l.phases, l.places, victim, Q.InTransit);
    PhasesAgain(l.phases, l.places[victim := Q.InTransit], t, Evicting(mine));
    EvictFlight(l.base.place, l.base.workers, l.base.evictors, l.places, victim, t);
    AccountTold(l.told, l.places, l.base.admitting, victim, Q.InTransit);
  }

  lemma EvictAccounts(c: Config, l: Ledger, t: nat, k: nat)
    requires T.Inv(l.base) && Emitters(l) && Accounts(c, l) && t in l.phases && t !in l.base.evictors && k < |l.base.queue| && l.base.queue[k].Event?
    ensures Accounts(c, DoEvictFor(l, t, k))
  {
    var victim := l.base.queue[k];
    QueuedIs(l, k);
    LawfulMoved(l.places, victim, Q.InTransit);
    hide T.Inv, Emitters, CountersOk, Q.Lawful;
    CountersMoved(l.places, l.handovers, |l.base.admitted|, l.counters, victim, Q.InTransit);
  }

  lemma EvictDrains(c: Config, l: Ledger, t: nat, k: nat)
    requires T.Inv(l.base) && Emitters(l) && Drains(c, l) && t in l.phases && t !in l.base.evictors && k < |l.base.queue| && l.base.queue[k].Event?
    ensures Drains(c, DoEvictFor(l, t, k))
  {
    var victim := l.base.queue[k];
    QueuedIs(l, k);
    hide T.Inv, Emitters, HandedOk, ProgressOk;
    HandedElsewhere(|c.drains|, l.handovers, l.base.place, l.progress, l.places, victim, Q.InTransit);
    HandedMoved(|c.drains|, l.handovers, l.base.place, l.progress, l.places[victim := Q.InTransit], victim, T.AtEvictor(t));
  }

  lemma QueuedIs(l: Ledger, k: nat)
    requires T.Inv(l.base) && Emitters(l) && k < |l.base.queue| && l.base.queue[k].Event?
    ensures var x := l.base.queue[k];
      x in l.base.place && l.base.place[x] == T.AtQueue && x in l.places && l.places[x] == Q.InQueue
  {
    assert l.base.queue[k] in l.base.queue;
    hide T.NumbersOk, T.UnreservedOk, T.WorkersOk, T.EvictorsOk, T.HandledOk, PhasesOk, ToldOk;
  }

  lemma EvictFlight(place: map<Item, T.Spot>, workers: seq<T.Worker>, evictors: map<nat, T.Evictor>, places: Places, x: Item, t: nat)
    requires FlightOk(place, workers, evictors, places) && t !in evictors
    ensures FlightOk(place[x := T.AtEvictor(t)], workers, evictors[t := T.Popped(x)], places[x := Q.InTransit])
  {
  }

  lemma AccountKeeps(c: Config, l: Ledger, t: nat, accepts: bool)
    requires Inv(c, l) && T.Enabled(l.base, T.Account(t)) && l.base.evictors[t].event.Event?
    ensures Inv(c, DoAccount(l, t, accepts))
  {
    hide T.Inv, Accounts, Drains, Emitters;
    T.AccountKeeps(l.base, t);
    AccountEmitters(l, t, accepts);
    AccountAccounts(c, l, t, accepts);
    AccountDrains(c, l, t, accepts);
  }

  lemma AccountEmitters(l: Ledger, t: nat, accepts: bool)
    requires T.Inv(l.base) && Emitters(l) && t in l.base.evictors && l.base.evictors[t].Popped? && l.base.evictors[t].event.Event?
    ensures Emitters(DoAccount(l, t, accepts))
  {
    var victim := l.base.evictors[t].event;
    PoppedIs(l, t);
    hide T.Inv, PhasesOk, FlightOk, ToldOk, Count;
    PhasesElsewhere(l.phases, l.places, victim, Q.Final(victim, accepts));
    AccountFlight(l.base, l.places, t, Q.Final(victim, accepts));
    AccountTold(l.told, l.places, l.base.admitting, victim, Q.Final(victim, accepts));
  }

  lemma AccountAccounts(c: Config, l: Ledger, t: nat, accepts: bool)
    requires T.Inv(l.base) && Emitters(l) && Accounts(c, l) && t in l.base.evictors && l.base.evictors[t].Popped? && l.base.evictors[t].event.Event?
    ensures Accounts(c, DoAccount(l, t, accepts))
  {
    PoppedIs(l, t);
    hide T.Inv, Emitters, CountersOk, Q.Lawful, Count;
    CountersSettle(l.places, l.handovers, |l.base.admitted|, l.counters, l.base.evictors[t].event, accepts);
  }

  lemma AccountDrains(c: Config, l: Ledger, t: nat, accepts: bool)
    requires T.Inv(l.base) && Emitters(l) && Drains(c, l) && t in l.base.evictors && l.base.evictors[t].Popped? && l.base.evictors[t].event.Event?
    ensures Drains(c, DoAccount(l, t, accepts))
  {
    var victim := l.base.evictors[t].event;
    var q := Q.Final(victim, accepts);
    PoppedIs(l, t);
    hide T.Inv, Emitters, HandedOk, ProgressOk, Count, Q.Final;
    assert !q.Delivered? by { FinalIsSettled(victim, accepts); }
    HandedElsewhere(|c.drains|, l.handovers, l.base.place, l.progress, l.places, victim, q);
  }

  lemma FinalIsSettled(x: Item, accepts: bool)
    requires x.Event?
    ensures Settled(Q.Final(x, accepts))
  {
  }

  /** A queued event was told to be enqueued, or is about to be. */
  lemma AccountTold(told: map<Item, Q.EmitResult>, places: Places, admitting: Option<Item>, x: Item, q: Q.Place)
    requires ToldOk(told, places, admitting) && x in places && Flying(places[x]) && !q.WithEmitter?
    ensures ToldOk(told, places[x := q], admitting)
  {
  }

  lemma PoppedIs(l: Ledger, t: nat)
    requires T.Inv(l.base) && Emitters(l) && t in l.base.evictors && l.base.evictors[t].Popped?
    ensures var x := l.base.evictors[t].event;
      && x in l.base.place && l.base.place[x] == T.AtEvictor(t) && x in l.places && l.places[x] == Q.InTransit
      && forall y :: y in l.base.place && l.base.place[y] == T.AtEvictor(t) ==> y == x
  {
    assert T.EvictorOk(t, l.base.evictors[t], l.base.place, l.base.number, l.base.evicted);
    hide T.NumbersOk, T.UnreservedOk, T.WorkersOk, T.QueueOk, T.HandledOk, PhasesOk, ToldOk;
  }

  lemma AccountFlight(s: T.State, places: Places, t: nat, q: Q.Place)
    requires FlightOk(s.place, s.workers, s.evictors, places) && t in s.evictors && Settled(q)
    requires forall y :: y in s.place && s.place[y] == T.AtEvictor(t) ==> y == s.evictors[t].event
    requires s.evictors[t].event in s.place && s.place[s.evictors[t].event] == T.AtEvictor(t)
    ensures FlightOk(s.place, s.workers, s.evictors[t := T.Accounted(s.evictors[t].event)], places[s.evictors[t].event := q])
  {
  }

  // ---------------------------------------------------------------- the workers

  /** The batch of a worker is what the machine has in its batch. */
  ghost predicate BatchPlaced(l: Ledger, w: nat)
    requires w < |l.base.workers|
  {
    Exactly(l.base.place, w, BatchOf(l.base, w))
  }

  ghost predicate Exactly(place: map<Item, T.Spot>, w: nat, batch: seq<Item>) {
    forall x :: x in batch <==> x in place && place[x] == T.AtBatch(w)
  }

  lemma BatchIsPlaced(l: Ledger, w: nat)
    requires T.Inv(l.base) && w < |l.base.workers|
    ensures BatchPlaced(l, w)
  {
    forall x ensures x in BatchOf(l.base, w) <==> x in l.base.place && l.base.place[x] == T.AtBatch(w) {
      InBatch(l, w, x);
    }
  }

  lemma InBatch(l: Ledger, w: nat, x: Item)
    requires T.Inv(l.base) && w < |l.base.workers|
    ensures x in BatchOf(l.base, w) <==> x in l.base.place && l.base.place[x] == T.AtBatch(w)
  {
    var batch, s := BatchOf(l.base, w), l.base;
    hide T.NumbersOk, T.UnreservedOk, T.QueueOk, T.EvictorsOk, T.HandledOk;
    assert T.WorkerOk(w, s.workers[w], s.place, s.number, s.delivered);
    if x in batch {
      var i :| 0 <= i < |batch| && batch[i] == x;
      assert s.workers[w].batch[i] in s.workers[w].batch;
    }
    if x in s.place && s.place[x] == T.AtBatch(w) {
      var slot := T.Slot(x, Some(s.number[x]));
      var i :| 0 <= i < |s.workers[w].batch| && s.workers[w].batch[i] == slot;
      assert batch[i] == x;
    }
  }

  lemma HandOverKeeps(c: Config, l: Ledger, w: nat, outcome: Q.Outcome)
    requires Inv(c, l) && CanHandOver(c, l, w)
    ensures Inv(c, DoHandOver(c, l, w, outcome))
  {
    BatchIsPlaced(l, w);
    hide T.Inv, BatchOf, BatchPlaced, Accounts, Drains;
    HandOverAccounts(c, l, w, outcome);
    HandOverDrains(c, l, w, outcome);
    hide Emitters;
  }

  lemma HandOverAccounts(c: Config, l: Ledger, w: nat, outcome: Q.Outcome)
    requires Accounts(c, l) && w < |l.base.workers| && Progress(l, w) < |c.drains|
    ensures Accounts(c, DoHandOver(c, l, w, outcome))
  {
    var hs, h := l.handovers, HandoverOf(c, l, w, outcome);
    assert (hs + [h])[..|hs|] == hs;
    Q.OffersAreRight(c.drains[h.drain], outcome, h.batch);
    hide Q.Counted, Q.Lawful, Q.DrainOffers, Q.RightlyOffered, Q.Answered, BatchOf, Progress;
  }

  lemma HandOverDrains(c: Config, l: Ledger, w: nat, outcome: Q.Outcome)
    requires Drains(c, l) && CanHandOver(c, l, w) && Emitters(l) && BatchPlaced(l, w)
    ensures Drains(c, DoHandOver(c, l, w, outcome))
  {
    var d, batch := Progress(l, w), BatchOf(l.base, w);
    BatchWithWorker(l, w);
    assert DoHandOver(c, l, w, outcome).base == l.base && DoHandOver(c, l, w, outcome).places == l.places
           && DoHandOver(c, l, w, outcome).progress == l.progress[w := d + 1]
           && DoHandOver(c, l, w, outcome).handovers == l.handovers + [HandoverOf(c, l, w, outcome)];
    hide BatchOf, HandedOk, ProgressOk, Emitters, Exactly, DoHandOver;
    HandOverHanded(|c.drains|, l.handovers, l.base.place, l.progress, l.places, w, HandoverOf(c, l, w, outcome));
    HandOverProgress(|c.drains|, l.base.workers, l.progress, w, d);
  }

  lemma BatchWithWorker(l: Ledger, w: nat)
    requires Emitters(l) && w < |l.base.workers| && !l.base.workers[w].delivered && BatchPlaced(l, w)
    ensures forall x :: x in BatchOf(l.base, w) ==> x in l.places && l.places[x].WithWorker?
  {
    hide BatchOf, PhasesOk, ToldOk;
  }

  lemma HandOverHanded(n: nat, hs: seq<Handover>, place: map<Item, T.Spot>, progress: map<nat, nat>, places: Places, w: nat, h: Handover)
    requires HandedOk(n, hs, place, progress, places)
    requires Exactly(place, w, h.batch)
    requires forall x :: x in h.batch ==> x in places && !places[x].Delivered?
    requires h.drain == if w in progress then progress[w] else 0
    ensures HandedOk(n, hs + [h], place, progress[w := h.drain + 1], places)
  {
    assert (hs + [h])[..|hs|] == hs;
    forall x, e | 0 <= e < n ensures Times(hs + [h], e, x) == Due(x, e, place, progress[w := h.drain + 1], places) {
      assert Times(hs, e, x) == Due(x, e, place, progress, places);
    }
  }

  lemma HandOverProgress(n: nat, workers: seq<T.Worker>, progress: map<nat, nat>, w: nat, d: nat)
    requires ProgressOk(n, workers, progress) && w < |workers| && d < n
    requires !workers[w].delivered && !T.HoldsEvent(workers[w]) && workers[w].batch != []
    ensures ProgressOk(n, workers, progress[w := d + 1])
  {
  }

  lemma DeliveredKeeps(c: Config, l: Ledger, w: nat)
    requires Inv(c, l) && CanDeliver(c, l, w)
    ensures Inv(c, DoDelivered(l, w))
  {
    BatchIsPlaced(l, w);
    hide T.Inv, BatchOf, BatchPlaced, Accounts, Drains, Emitters;
    T.DeliverKeeps(l.base, w);
    DeliveredEmitters(l, w);
    DeliveredAccounts(c, l, w);
    DeliveredDrains(c, l, w);
  }

  function Handed(places: Places, batch: seq<Item>): Places {
    map x | x in places :: if x in batch then Q.Delivered else places[x]
  }

  lemma DeliveredEmitters(l: Ledger, w: nat)
    requires Emitters(l) && w < |l.base.workers| && !l.base.workers[w].delivered
    requires BatchPlaced(l, w)
    ensures Emitters(DoDelivered(l, w))
  {
    var batch := BatchOf(l.base, w);
    BatchWithWorker(l, w);
    hide BatchOf;
    DeliveredPhases(l.phases, l.places, batch);
    DeliveredTold(l.told, l.places, l.base.admitting, batch);
    DeliveredFlight(l.base, l.places, w, batch);
    hide PhasesOk, ToldOk, FlightOk, Handed;
  }

  lemma DeliveredFlight(s: T.State, places: Places, w: nat, batch: seq<Item>)
    requires FlightOk(s.place, s.workers, s.evictors, places) && w < |s.workers|
    requires Exactly(s.place, w, batch)
    ensures FlightOk(s.place, s.workers[w := s.workers[w].(delivered := true)], s.evictors, Handed(places, batch))
  {
  }

  lemma DeliveredPhases(phases: map<nat, Phase>, places: Places, batch: seq<Item>)
    requires PhasesOk(phases, places) && forall x :: x in batch ==> x in places && places[x].WithWorker?
    ensures PhasesOk(phases, Handed(places, batch))
  {
    var now := Handed(places, batch);
    forall x | x in now && now[x].WithEmitter? ensures Held(x, phases) {
      assert places[x].WithEmitter?;
    }
  }

  lemma DeliveredTold(told: map<Item, Q.EmitResult>, places: Places, admitting: Option<Item>, batch: seq<Item>)
    requires ToldOk(told, places, admitting) && forall x :: x in batch ==> x in places && places[x].WithWorker?
    ensures ToldOk(told, Handed(places, batch), admitting)
  {
  }

  lemma DeliveredAccounts(c: Config, l: Ledger, w: nat)
    requires Accounts(c, l) && Emitters(l)
    requires w < |l.base.workers| && !l.base.workers[w].delivered
    requires BatchPlaced(l, w)
    ensures Accounts(c, DoDelivered(l, w))
  {
    var batch := BatchOf(l.base, w);
    BatchWithWorker(l, w);
    hide BatchOf;
    HandedAccounts(l.places, batch);
    hide Q.At, Q.DebugOf, Q.Lawful, FlightOk, SpoolAnswers, Emitted;
  }

  lemma HandedAccounts(places: Places, batch: seq<Item>)
    requires Q.Lawful(places) && forall x :: x in batch ==> x in places && places[x].WithWorker?
    ensures Q.Lawful(Handed(places, batch))
    ensures forall q: Q.Place :: Settled(q) ==> Q.At(Handed(places, batch), q) == Q.At(places, q)
  {
  }

  lemma DeliveredDrains(c: Config, l: Ledger, w: nat)
    requires Drains(c, l) && CanDeliver(c, l, w) && Emitters(l) && BatchPlaced(l, w)
    ensures Drains(c, DoDelivered(l, w))
  {
    var batch, n := BatchOf(l.base, w), |c.drains|;
    assert |batch| == |l.base.workers[w].batch|;
    BatchWithWorker(l, w);
    DeliveredIs(l, w);
    hide BatchOf, Emitters, HandedOk, ProgressOk, Handed, Exactly, DoDelivered;
    assert batch != [] ==> (w in l.progress && l.progress[w] == n) || n == 0;
    DeliveredHanded(n, l.handovers, l.base.place, l.progress, l.places, w, batch);
    DeliveredProgress(n, l.base.workers, l.progress, w);
  }

  lemma DeliveredIs(l: Ledger, w: nat)
    requires w < |l.base.workers|
    ensures var m := DoDelivered(l, w);
      && m.handovers == l.handovers && m.base.place == l.base.place && m.progress == l.progress - {w}
      && m.places == Handed(l.places, BatchOf(l.base, w))
      && m.base.workers == l.base.workers[w := l.base.workers[w].(delivered := true)]
  {
  }

  lemma DeliveredHanded(n: nat, hs: seq<Handover>, place: map<Item, T.Spot>, progress: map<nat, nat>, places: Places,
                        w: nat, batch: seq<Item>)
    requires HandedOk(n, hs, place, progress, places)
    requires Exactly(place, w, batch)
    requires forall x :: x in batch ==> x in places
    requires batch != [] ==> (w in progress && progress[w] == n) || n == 0
    ensures HandedOk(n, hs, place, progress - {w}, Handed(places, batch))
  {
    forall x, d | 0 <= d < n ensures Due(x, d, place, progress - {w}, Handed(places, batch)) == Due(x, d, place, progress, places) {
      if x in batch {
        assert batch != [];
      }
    }
    HandedSame(n, hs, place, progress, places, place, progress - {w}, Handed(places, batch));
  }

  lemma DeliveredProgress(n: nat, workers: seq<T.Worker>, progress: map<nat, nat>, w: nat)
    requires ProgressOk(n, workers, progress) && w < |workers|
    ensures ProgressOk(n, workers[w := workers[w].(delivered := true)], progress - {w})
  {
  }

  // ---------------------------------------------------------------- the machine's own steps

  lemma AdmitKeeps(c: Config, l: Ledger, event: Item)
    requires Inv(c, l) && l.base.admitting == Some(event)
    ensures Inv(c, DoAdmit(l, event))
  {
    AdmittedIsFlying(l, event);
    T.AdmitKeeps(l.base, event);
    AdmitTold(l.told, l.places, event);
    hide T.Inv, PhasesOk, FlightOk, ToldOk, HandedOk, ProgressOk, Q.Lawful, Q.Counted, SpoolAnswers, Emitted;
  }

  /** The event between `put_nowait` and `_admit` may already be with a worker or an evictor. */
  lemma AdmittedIsFlying(l: Ledger, event: Item)
    requires T.Inv(l.base) && Emitters(l) && l.base.admitting == Some(event)
    ensures event in l.places && !l.places[event].WithEmitter?
  {
    assert event in l.base.place;
    hide T.Inv, PhasesOk, ToldOk;
    assert Fits(l.base.place[event], l.places[event], l.base.workers, l.base.evictors);
  }

  lemma AdmitTold(told: map<Item, Q.EmitResult>, places: Places, x: Item)
    requires ToldOk(told, places, Some(x)) && x in places && !places[x].WithEmitter?
    ensures ToldOk(told[x := Q.Enqueued], places, None)
  {
  }

  lemma GetKeeps(c: Config, l: Ledger, w: nat)
    requires Inv(c, l) && T.Enabled(l.base, T.Get(w)) && w !in l.progress
    ensures Inv(c, DoGet(l, w))
  {
    T.GetKeeps(l.base, w);
    hide T.Inv;
    if l.base.queue[0].Event? {
      GetEmitters(c, l, w);
      GetAccounts(c, l, w);
      GetDrains(c, l, w);
    } else {
      var now := l.base.workers[w := l.base.workers[w].(hand := Some(l.base.queue[0]))];
      WorkersOnly(c, l, now, T.DoGet(l.base, w, l.base.queue[0]));
    }
    hide Emitters, Accounts, Drains;
  }

  lemma GetEmitters(c: Config, l: Ledger, w: nat)
    requires T.Inv(l.base) && Emitters(l) && T.Enabled(l.base, T.Get(w)) && l.base.queue[0].Event?
    ensures Emitters(DoGet(l, w))
  {
    var item := l.base.queue[0];
    QueuedIs(l, 0);
    hide T.Inv, PhasesOk, FlightOk, ToldOk;
    PhasesElsewhere(l.phases, l.places, item, Q.WithWorker);
    AccountTold(l.told, l.places, l.base.admitting, item, Q.WithWorker);
    var now := l.base.workers[w := l.base.workers[w].(hand := Some(item))];
    FlightMoved(l.base.place, l.base.workers, l.base.evictors, l.places, item, T.AtHand(w), Q.WithWorker);
    FlightWorkers(l.base.place[item := T.AtHand(w)], l.base.workers, l.base.evictors, l.places[item := Q.WithWorker], now);
  }

  lemma GetAccounts(c: Config, l: Ledger, w: nat)
    requires T.Inv(l.base) && Emitters(l) && Accounts(c, l) && T.Enabled(l.base, T.Get(w)) && l.base.queue[0].Event?
    ensures Accounts(c, DoGet(l, w))
  {
    QueuedIs(l, 0);
    LawfulMoved(l.places, l.base.queue[0], Q.WithWorker);
    hide T.Inv, Emitters, CountersOk, Q.Lawful;
    CountersMoved(l.places, l.handovers, |l.base.admitted|, l.counters, l.base.queue[0], Q.WithWorker);
  }

  lemma GetDrains(c: Config, l: Ledger, w: nat)
    requires T.Inv(l.base) && Emitters(l) && Drains(c, l) && T.Enabled(l.base, T.Get(w)) && l.base.queue[0].Event?
    requires w !in l.progress
    ensures Drains(c, DoGet(l, w))
  {
    var item := l.base.queue[0];
    QueuedIs(l, 0);
    hide T.Inv, Emitters, HandedOk;
    HandedElsewhere(|c.drains|, l.handovers, l.base.place, l.progress, l.places, item, Q.WithWorker);
    HandedMoved(|c.drains|, l.handovers, l.base.place, l.progress, l.places[item := Q.WithWorker], item, T.AtHand(w));
    ProgressElsewhere(|c.drains|, l.base.workers, l.progress, w, l.base.workers[w].(hand := Some(item)));
    hide ProgressOk;
  }

  /** A worker that is not handing over anything changes. */
  lemma ProgressElsewhere(n: nat, workers: seq<T.Worker>, progress: map<nat, nat>, w: nat, now: T.Worker)
    requires ProgressOk(n, workers, progress) && w < |workers| && w !in progress
    ensures ProgressOk(n, workers[w := now], progress)
  {
  }

  /** The machine steps without moving an event, except that a worker takes up or puts down a request. */
  lemma WorkersOnly(c: Config, l: Ledger, workers: seq<T.Worker>, s: T.State)
    requires Emitters(l) && Accounts(c, l) && Drains(c, l)
    requires s.workers == workers && s.place == l.base.place && s.evictors == l.base.evictors
    requires s.admitting == l.base.admitting && s.admitted == l.base.admitted
    requires |workers| == |l.base.workers| && forall w :: 0 <= w < |workers| ==> workers[w].delivered == l.base.workers[w].delivered
    requires forall w :: w in l.progress && w < |workers| ==> workers[w] == l.base.workers[w]
    ensures Emitters(l.(base := s)) && Accounts(c, l.(base := s)) && Drains(c, l.(base := s))
  {
    FlightWorkers(l.base.place, l.base.workers, l.base.evictors, l.places, workers);
    hide PhasesOk, FlightOk, ToldOk, Q.Lawful, CountersOk, HandedOk;
  }

  lemma TakeKeeps(c: Config, l: Ledger, w: nat)
    requires Inv(c, l) && T.Enabled(l.base, T.Take(w))
    ensures Inv(c, l.(base := T.DoTake(l.base, w, l.base.workers[w].hand.value)))
  {
    var event := l.base.workers[w].hand.value;
    T.TakeKeeps(l.base, w);
    HandIs(l, w);
    hide T.Inv;
    TakeEmitters(l, w);
    TakeDrains(c, l, w);
    hide Emitters, Drains, Q.Lawful, CountersOk;
  }

  lemma HandIs(l: Ledger, w: nat)
    requires T.Inv(l.base) && Emitters(l) && w < |l.base.workers| && T.HoldsEvent(l.base.workers[w])
    ensures var event := l.base.workers[w].hand.value;
      && event in l.base.place && l.base.place[event] == T.AtHand(w) && !l.base.workers[w].delivered
      && event in l.places && l.places[event] == Q.WithWorker
  {
    assert T.WorkerOk(w, l.base.workers[w], l.base.place, l.base.number, l.base.delivered);
    hide T.NumbersOk, T.UnreservedOk, T.QueueOk, T.EvictorsOk, T.HandledOk, PhasesOk, ToldOk;
  }

  lemma TakeEmitters(l: Ledger, w: nat)
    requires Emitters(l) && w < |l.base.workers| && T.HoldsEvent(l.base.workers[w]) && !l.base.workers[w].delivered
    requires var event := l.base.workers[w].hand.value;
      event in l.base.place && event in l.places && l.places[event] == Q.WithWorker
    ensures Emitters(l.(base := T.DoTake(l.base, w, l.base.workers[w].hand.value)))
  {
    var event, s := l.base.workers[w].hand.value, l.base;
    var t := T.DoTake(s, w, event);
    assert t.place == s.place[event := T.AtBatch(w)] && t.evictors == s.evictors && t.admitting == s.admitting;
    assert |t.workers| == |s.workers| && forall v :: 0 <= v < |t.workers| ==> t.workers[v].delivered == s.workers[v].delivered;
    assert l.places[event := Q.WithWorker] == l.places;
    hide T.DoTake, PhasesOk, FlightOk, ToldOk;
    FlightMoved(s.place, s.workers, s.evictors, l.places, event, T.AtBatch(w), Q.WithWorker);
    FlightWorkers(t.place, s.workers, s.evictors, l.places, t.workers);
  }

  lemma TakeDrains(c: Config, l: Ledger, w: nat)
    requires Drains(c, l) && w < |l.base.workers| && T.HoldsEvent(l.base.workers[w])
    requires var event := l.base.workers[w].hand.value; event in l.base.place && l.base.place[event] == T.AtHand(w)
    ensures Drains(c, l.(base := T.DoTake(l.base, w, l.base.workers[w].hand.value)))
  {
    var event, s := l.base.workers[w].hand.value, l.base;
    assert w !in l.progress;
    var t := T.DoTake(s, w, event);
    assert t.place == s.place[event := T.AtBatch(w)] && t.workers == s.workers[w := t.workers[w]];
    hide T.DoTake, HandedOk;
    HandedMoved(|c.drains|, l.handovers, s.place, l.progress, l.places, event, T.AtBatch(w));
    ProgressElsewhere(|c.drains|, s.workers, l.progress, w, t.workers[w]);
    hide ProgressOk;
  }

  lemma CompleteKeeps(c: Config, l: Ledger, w: nat)
    requires Inv(c, l) && T.Enabled(l.base, T.Complete(w))
    ensures Inv(c, l.(base := T.DoComplete(l.base, w)))
  {
    T.CompleteKeeps(l.base, w);
    BatchIsPlaced(l, w);
    BatchEvents(l.base, w);
    hide T.Inv, BatchOf;
    CompleteEmitters(l, w);
    CompleteDrains(c, l, w);
    hide Emitters, Drains, Q.Lawful, CountersOk;
  }

  lemma BatchEvents(s: T.State, w: nat)
    requires w < |s.workers|
    ensures forall x :: x in T.EventsIn(s.workers[w].batch) <==> x in BatchOf(s, w)
  {
    var slots, batch := s.workers[w].batch, BatchOf(s, w);
    forall x | x in T.EventsIn(slots) ensures x in batch {
      var i :| 0 <= i < |slots| && slots[i].event == x;
      assert batch[i] == x;
    }
    forall x | x in batch ensures x in T.EventsIn(slots) {
      var i :| 0 <= i < |batch| && batch[i] == x;
      assert slots[i] in slots;
    }
  }

  lemma CompleteEmitters(l: Ledger, w: nat)
    requires Emitters(l) && w < |l.base.workers| && l.base.workers[w].delivered && BatchPlaced(l, w)
    requires forall x :: x in T.EventsIn(l.base.workers[w].batch) <==> x in BatchOf(l.base, w)
    ensures Emitters(l.(base := T.DoComplete(l.base, w)))
  {
    var gone := T.EventsIn(l.base.workers[w].batch);
    hide BatchOf, T.EventsIn;
    CompleteFlight(l.base.place, l.base.workers, l.base.evictors, l.places, w, gone);
    hide FlightOk, PhasesOk, ToldOk, BatchPlaced;
  }

  lemma CompleteFlight(place: map<Item, T.Spot>, workers: seq<T.Worker>, evictors: map<nat, T.Evictor>, places: Places, w: nat, gone: set<Item>)
    requires FlightOk(place, workers, evictors, places) && w < |workers| && workers[w].delivered
    requires forall x :: x in gone <==> x in place && place[x] == T.AtBatch(w)
    ensures FlightOk(place - gone, workers[w := workers[w].(batch := [], delivered := false)], evictors, places)
  {
  }

  lemma CompleteDrains(c: Config, l: Ledger, w: nat)
    requires Drains(c, l) && Emitters(l) && w < |l.base.workers| && l.base.workers[w].delivered && BatchPlaced(l, w)
    requires forall x :: x in T.EventsIn(l.base.workers[w].batch) <==> x in BatchOf(l.base, w)
    ensures Drains(c, l.(base := T.DoComplete(l.base, w)))
  {
    var gone := T.EventsIn(l.base.workers[w].batch);
    assert w !in l.progress;
    hide BatchOf, T.EventsIn;
    CompleteHanded(|c.drains|, l.handovers, l.base.place, l.progress, l.places, w, gone);
    ProgressElsewhere(|c.drains|, l.base.workers, l.progress, w, l.base.workers[w].(batch := [], delivered := false));
    hide Emitters, HandedOk, ProgressOk, BatchPlaced;
  }

  lemma CompleteHanded(n: nat, hs: seq<Handover>, place: map<Item, T.Spot>, progress: map<nat, nat>, places: Places, w: nat, gone: set<Item>)
    requires HandedOk(n, hs, place, progress, places) && w !in progress
    requires forall x :: x in gone <==> x in place && place[x] == T.AtBatch(w)
    ensures HandedOk(n, hs, place - gone, progress, places)
  {
    HandedSame(n, hs, place, progress, places, place - gone, progress, places);
  }

  lemma TakeEvictedKeeps(c: Config, l: Ledger, t: nat)
    requires Inv(c, l) && T.Enabled(l.base, T.TakeEvicted(t))
    ensures Inv(c, l.(base := T.DoTakeEvicted(l.base, t)))
  {
    hide T.Inv, Emitters, Drains, Q.Lawful, CountersOk;
    T.TakeEvictedKeeps(l.base, t);
    assert T.DoTakeEvicted(l.base, t).admitted == l.base.admitted;
    assert t in l.base.evictors && !l.base.evictors[t].Popped?;
    hide T.Enabled, T.DoTakeEvicted;
    EvictedIs(l, t);
    TakeEvictedEmitters(l, t);
    TakeEvictedDrains(c, l, t);
  }

  lemma TakeEvictedEmitters(l: Ledger, t: nat)
    requires Emitters(l) && t in l.base.evictors
    requires var x := l.base.evictors[t].event;
      && x in l.base.unreserved && x in l.places && Settled(l.places[x])
      && forall y :: y in l.base.place && (l.base.place[y] == T.AtEvictor(t) || l.base.place[y] == T.AtReserved(t)) ==> y == x
    ensures Emitters(l.(base := T.DoTakeEvicted(l.base, t)))
  {
    var x := l.base.evictors[t].event;
    ReservedFlight(l.base.place, l.base.workers, l.base.evictors, l.places, t, x, l.base.unreserved[x]);
    hide PhasesOk, FlightOk, ToldOk;
  }

  lemma TakeEvictedDrains(c: Config, l: Ledger, t: nat)
    requires Drains(c, l) && t in l.base.evictors
    requires var x := l.base.evictors[t].event;
      && x in l.base.unreserved && x in l.base.place && !Batched(l.base.place[x])
    ensures Drains(c, l.(base := T.DoTakeEvicted(l.base, t)))
  {
    var x := l.base.evictors[t].event;
    HandedMoved(|c.drains|, l.handovers, l.base.place, l.progress, l.places, x, T.AtReserved(t));
    hide HandedOk, ProgressOk;
  }

  lemma EvictedIs(l: Ledger, t: nat)
    requires T.Inv(l.base) && Emitters(l) && t in l.base.evictors && !l.base.evictors[t].Popped?
    ensures var x := l.base.evictors[t].event;
      && x in l.base.place && (l.base.place[x] == T.AtEvictor(t) || l.base.place[x] == T.AtReserved(t))
      && x in l.places && Settled(l.places[x])
      && forall y :: y in l.base.place && (l.base.place[y] == T.AtEvictor(t) || l.base.place[y] == T.AtReserved(t)) ==> y == x
  {
    assert T.EvictorOk(t, l.base.evictors[t], l.base.place, l.base.number, l.base.evicted);
    hide T.NumbersOk, T.UnreservedOk, T.WorkersOk, T.QueueOk, T.HandledOk, PhasesOk, ToldOk;
  }

  lemma ReservedFlight(place: map<Item, T.Spot>, workers: seq<T.Worker>, evictors: map<nat, T.Evictor>, places: Places, t: nat, x: Item, n: nat)
    requires FlightOk(place, workers, evictors, places) && t in evictors && x in places && Settled(places[x])
    requires forall y :: y in place && place[y] == T.AtEvictor(t) ==> y == x
    ensures FlightOk(place[x := T.AtReserved(t)], workers, evictors[t := T.Reserved(x, n)], places)
  {
  }

  lemma CompleteEvictedKeeps(c: Config, l: Ledger, t: nat)
    requires Inv(c, l) && t in l.base.evictors && l.base.evictors[t].Reserved? && l.base.admitting.None?
    ensures Inv(c, l.(base := T.DoCompleteEvicted(l.base, t, l.base.evictors[t].event, l.base.evictors[t].n)))
  {
    hide T.Inv, Emitters, Drains, Q.Lawful, CountersOk;
    T.CompleteEvictedKeeps(l.base, t);
    hide T.Enabled;
    EvictedIs(l, t);
    CompleteEvictedEmitters(l, t);
    CompleteEvictedDrains(c, l, t);
  }

  lemma CompleteEvictedEmitters(l: Ledger, t: nat)
    requires Emitters(l) && t in l.base.evictors && l.base.evictors[t].Reserved?
    requires var x := l.base.evictors[t].event;
      && x in l.places && Settled(l.places[x])
      && forall y :: y in l.base.place && (l.base.place[y] == T.AtEvictor(t) || l.base.place[y] == T.AtReserved(t)) ==> y == x
    ensures Emitters(l.(base := T.DoCompleteEvicted(l.base, t, l.base.evictors[t].event, l.base.evictors[t].n)))
  {
    LeftFlight(l.base.place, l.base.workers, l.base.evictors, l.places, t, l.base.evictors[t].event);
    hide PhasesOk, FlightOk, ToldOk;
  }

  lemma CompleteEvictedDrains(c: Config, l: Ledger, t: nat)
    requires Drains(c, l) && t in l.base.evictors && l.base.evictors[t].Reserved?
    requires var x := l.base.evictors[t].event; x in l.base.place && !Batched(l.base.place[x])
    ensures Drains(c, l.(base := T.DoCompleteEvicted(l.base, t, l.base.evictors[t].event, l.base.evictors[t].n)))
  {
    var x := l.base.evictors[t].event;
    HandedSame(|c.drains|, l.handovers, l.base.place, l.progress, l.places, l.base.place - {x}, l.progress, l.places);
    hide HandedOk, ProgressOk;
  }

  lemma LeftFlight(place: map<Item, T.Spot>, workers: seq<T.Worker>, evictors: map<nat, T.Evictor>, places: Places, t: nat, x: Item)
    requires FlightOk(place, workers, evictors, places) && x in places && Settled(places[x])
    requires forall y :: y in place && place[y] == T.AtEvictor(t) ==> y == x
    ensures FlightOk(place - {x}, workers, evictors - {t}, places)
  {
  }

  lemma OtherStepKeeps(c: Config, l: Ledger, b: T.Action)
    requires Inv(c, l) && T.Enabled(l.base, b) && (b.PutRequest? || b.Finish? || b.ReadTarget?)
    ensures Inv(c, l.(base := T.Next(l.base, b)))
  {
    OtherStepIs(c, l, b);
    hide T.Inv, Emitters, Accounts, Drains;
    T.StepKeeps(l.base, b);
    hide T.Enabled, T.Next;
    var s := T.Next(l.base, b);
    WorkersOnly(c, l, s.workers, s);
  }

  lemma OtherStepIs(c: Config, l: Ledger, b: T.Action)
    requires Drains(c, l) && T.Enabled(l.base, b) && (b.PutRequest? || b.Finish? || b.ReadTarget?)
    ensures var s, workers := T.Next(l.base, b), l.base.workers;
      && s.place == l.base.place && s.evictors == l.base.evictors && s.admitting == l.base.admitting && s.admitted == l.base.admitted
      && |s.workers| == |workers| && (forall w :: 0 <= w < |workers| ==> s.workers[w].delivered == workers[w].delivered)
      && (forall w :: w in l.progress && w < |workers| ==> s.workers[w] == workers[w])
  {
    hide HandedOk;
  }

  // ---------------------------------------------------------------- runs

  lemma MachineStepKeeps(c: Config, l: Ledger, b: T.Action)
    requires Inv(c, l) && Plain(b) && T.Enabled(l.base, b) && (b.Get? ==> b.worker !in l.progress)
    ensures Inv(c, DoStep(l, b))
  {
    hide Inv;
    match b
    case Admit => AdmitKeeps(c, l, l.base.admitting.value);
    case Get(w) => GetKeeps(c, l, w);
    case Take(w) => TakeKeeps(c, l, w);
    case Complete(w) => CompleteKeeps(c, l, w);
    case TakeEvicted(t) => TakeEvictedKeeps(c, l, t);
    case CompleteEvicted(t) => CompleteEvictedKeeps(c, l, t);
    case _ => OtherStepKeeps(c, l, b);
  }

  /** Every step of every thread keeps the ledger. */
  lemma StepKeeps(c: Config, l: Ledger, a: Action)
    requires Inv(c, l) && Enabled(c, l, a)
    ensures Inv(c, Next(c, l, a))
  {
    hide Inv, T.Enabled, DoCall, DoPutEvent, DoOwn, DoEvictFor, DoAccount, DoHandOver, DoDelivered, DoStep;
    match a
    case Call(t, event) => CallKeeps(c, l, t, event);
    case PutEvent(t) => PutEventKeeps(c, l, t);
    case PutFails(t) =>
      PhaseKeeps(c, l, t, if l.phases[t].Trying? then Full(l.phases[t].event) else Failing(l.phases[t].event));
    case SpoolOwn(t, accepts) => OwnKeeps(c, l, t, accepts, if accepts then Q.Spooled else Q.SpoolRefused);
    case DropOwn(t) => OwnKeeps(c, l, t, false, Q.QueueFull);
    case EvictFor(t, k) => EvictForKeeps(c, l, t, k);
    case NoVictimFor(t) => PhaseKeeps(c, l, t, Retrying(l.phases[t].event));
    case AccountFor(t, accepts) => AccountKeeps(c, l, t, accepts);
    case Resume(t) => PhaseKeeps(c, l, t, Retrying(l.phases[t].event));
    case HandOver(w, outcome) => HandOverKeeps(c, l, w, outcome);
    case Delivered(w) => DeliveredKeeps(c, l, w);
    case Step(b) => MachineStepKeeps(c, l, b);
  }

  ghost predicate Possible(c: Config, l: Ledger, run: seq<Action>)
    decreases |run|
  {
    run == [] || (Enabled(c, l, run[0]) && Possible(c, Next(c, l, run[0]), run[1..]))
  }

  ghost function After(c: Config, l: Ledger, run: seq<Action>): Ledger
    requires Possible(c, l, run)
    decreases |run|
  {
    if run == [] then l else After(c, Next(c, l, run[0]), run[1..])
  }

  lemma {:induction false} RunKeeps(c: Config, l: Ledger, run: seq<Action>)
    requires Inv(c, l) && Possible(c, l, run)
    ensures Inv(c, After(c, l, run))
    decreases |run|
  {
    hide Inv, Enabled;
    if run != [] {
      StepKeeps(c, l, run[0]);
      RunKeeps(c, Next(c, l, run[0]), run[1..]);
    }
  }

  /** Over every interleaving of any number of emitters, workers and flushers, with drains and spools that may
      fail at any time: every emitted event is in exactly one place, which is where the threads' own data has
      it; only non-critical events are dropped and only critical ones spooled or refused; each drain has been
      handed each delivered event exactly once, and its spool offered exactly the critical events of each
      batch it failed to take; the counters are exact; and what `emit` returned is true. */
  lemma LedgerOfRun(c: Config, capacity: nat, workers: nat, run: seq<Action>)
    requires Possible(c, Start(capacity, workers), run)
    ensures LedgerIs(c, After(c, Start(capacity, workers), run))
  {
    StartInv(c, capacity, workers);
    hide Inv, LedgerIs;
    RunKeeps(c, Start(capacity, workers), run);
    LedgerHolds(c, After(c, Start(capacity, workers), run));
  }

  ghost predicate LedgerIs(c: Config, l: Ledger) {
    && PhasesOk(l.phases, l.places) && FlightOk(l.base.place, l.base.workers, l.base.evictors, l.places)
    && (forall x :: x in l.places && l.places[x].Dropped? ==> x.Event? && x.delivery != Q.Critical)
    && (forall x :: x in l.places && (l.places[x].InSpool? || l.places[x].Refused?) ==> x.Event? && x.delivery == Q.Critical)
    && (forall x, d :: x in l.places && l.places[x].Delivered? && 0 <= d < |c.drains| ==> Times(l.handovers, d, x) == 1)
    && OffersOk(c, l.handovers)
    && CountersAre(l)
    && (forall x :: x in l.told ==> x in l.places && Agrees(l.told[x], l.places[x]))
  }

  /** The counters, in terms of the events. */
  ghost predicate CountersAre(l: Ledger) {
    var p, k := l.places, l.counters;
    && k.enqueued == |l.base.admitted|
    && k.spooled == |set x | x in p && p[x].InSpool?| + SpoolAnswers(l.handovers, true)
    && k.errors == |set x | x in p && p[x].Refused?| + SpoolAnswers(l.handovers, false)
    && k.debug == |set x | x in p && p[x].Dropped? && x.Event? && x.delivery == Q.Debug|
    && k.debug + k.telemetry == |set x | x in p && p[x].Dropped?|
  }

  lemma LedgerHolds(c: Config, l: Ledger)
    requires Inv(c, l)
    ensures LedgerIs(c, l)
  {
    hide T.Inv, FlightOk, OffersOk, Times;
    CountersMean(l);
    hide PhasesOk, CountersOk, CountersAre;
  }

  lemma CountersMean(l: Ledger)
    requires CountersOk(l.places, l.handovers, |l.base.admitted|, l.counters)
    ensures CountersAre(l)
  {
    var p := l.places;
    assert Q.At(p, Q.InSpool) == set x | x in p && p[x].InSpool?;
    assert Q.At(p, Q.Refused) == set x | x in p && p[x].Refused?;
    assert Q.At(p, Q.Dropped) == set x | x in p && p[x].Dropped?;
    assert Q.DebugOf(Q.At(p, Q.Dropped)) == set x | x in p && p[x].Dropped? && x.Event? && x.delivery == Q.Debug;
    hide Q.At, Q.DebugOf, SpoolAnswers, Emitted;
  }

  /** Nothing is in flight and no emitter is busy. */
  ghost predicate Quiet(l: Ledger) {
    l.phases == map[] && l.base.place == map[]
  }

  /** When everything has come to rest, each emitted event was delivered, spooled, refused by the spool, or
      dropped: the four add up to what was emitted. */
  lemma Conservation(c: Config, l: Ledger)
    requires Inv(c, l) && Quiet(l)
    ensures |l.places| == |Q.At(l.places, Q.Delivered)| + |Q.At(l.places, Q.InSpool)|
                        + |Q.At(l.places, Q.Refused)| + |Q.At(l.places, Q.Dropped)|
  {
    var p := l.places;
    assert forall x :: x in p && p[x].WithEmitter? ==> Held(x, l.phases);
    assert forall x :: x in p && Flying(p[x]) ==> x in l.base.place;
    hide Inv;
    FourPlaces(p);
  }

  lemma FourPlaces(p: Places)
    requires forall x :: x in p ==> p[x].Delivered? || Settled(p[x])
    ensures |p| == |Q.At(p, Q.Delivered)| + |Q.At(p, Q.InSpool)| + |Q.At(p, Q.Refused)| + |Q.At(p, Q.Dropped)|
  {
    var d, s, r, q := Q.At(p, Q.Delivered), Q.At(p, Q.InSpool), Q.At(p, Q.Refused), Q.At(p, Q.Dropped);
    assert p.Keys == d + s + r + q;
    DisjointSum(d, s, r, q);
    hide Q.At;
  }

  lemma DisjointSum(a: set<Item>, b: set<Item>, c: set<Item>, d: set<Item>)
    requires a !! b && a !! c && a !! d && b !! c && b !! d && c !! d
    ensures |a + b + c + d| == |a| + |b| + |c| + |d|
  {
    assert (a + b) !! c && (a + b + c) !! d;
  }

  // ---------------------------------------------------------------- the drop policy

  /** Nobody evicts, and what was enqueued is never spooled, refused or dropped. */
  ghost predicate NothingEvicted(l: Ledger) {
    && l.base.evictors == map[]
    && forall x :: x in l.told && l.told[x].Enqueued? ==> x in l.places && !Settled(l.places[x])
  }

  /** Under the policy to drop the newest event, over every interleaving, an event that `emit` has enqueued is
      queued, with a worker or delivered. */
  lemma DropNewestOfRun(c: Config, capacity: nat, workers: nat, run: seq<Action>)
    requires Possible(c, Start(capacity, workers), run) && !c.dropOldest
    ensures var l := After(c, Start(capacity, workers), run);
      forall x :: x in l.told && l.told[x].Enqueued? ==> x in l.places && !Settled(l.places[x])
  {
    StartInv(c, capacity, workers);
    hide Inv;
    DropNewestKeeps(c, Start(capacity, workers), run);
  }

  lemma {:induction false} DropNewestKeeps(c: Config, l: Ledger, run: seq<Action>)
    requires Inv(c, l) && Possible(c, l, run) && !c.dropOldest && NothingEvicted(l)
    ensures NothingEvicted(After(c, l, run))
    decreases |run|
  {
    hide Inv, NothingEvicted, Enabled;
    if run != [] {
      StepKeeps(c, l, run[0]);
      NothingEvictedStep(c, l, run[0]);
      DropNewestKeeps(c, Next(c, l, run[0]), run[1..]);
    }
  }

  lemma NothingEvictedStep(c: Config, l: Ledger, a: Action)
    requires Inv(c, l) && Enabled(c, l, a) && !c.dropOldest && NothingEvicted(l)
    ensures NothingEvicted(Next(c, l, a))
  {
    hide T.Inv, Accounts, Drains, Emitters;
    if a.Step? {
      NothingEvictedMachine(l, a.action);
    } else {
      StillEnqueued(l);
    }
  }

  lemma NothingEvictedMachine(l: Ledger, b: T.Action)
    requires T.Inv(l.base) && Emitters(l) && Plain(b) && T.Enabled(l.base, b) && NothingEvicted(l)
    ensures NothingEvicted(DoStep(l, b))
  {
    hide T.Inv, Emitters;
    if b.Admit? {
      AdmittingInQueue(l, l.base.admitting.value);
    }
  }

  lemma AdmittingInQueue(l: Ledger, x: Item)
    requires T.Inv(l.base) && Emitters(l) && l.base.evictors == map[] && l.base.admitting == Some(x)
    ensures x in l.places && !Settled(l.places[x])
  {
    assert x in l.base.place && T.Waiting(l.base.place[x]) by {
      hide T.UnreservedOk, T.QueueOk, T.WorkersOk, T.EvictorsOk, T.HandledOk, Emitters;
    }
    hide T.Inv, PhasesOk, ToldOk;
  }

  /** Emitters still hold what has not been enqueued. */
  lemma StillEnqueued(l: Ledger)
    requires Emitters(l)
    ensures forall t :: t in l.phases ==> l.phases[t].event in l.places && l.phases[t].event !in l.told
  {
    hide FlightOk;
    forall t | t in l.phases ensures l.phases[t].event in l.places && l.phases[t].event !in l.told {
      assert l.places[l.phases[t].event].WithEmitter?;
    }
  }

  /** The spool's answer decides where a critical event goes, and what its emitter is told. */
  lemma AnswersPlaced(c: Config, l: Ledger, t: nat, accepts: bool)
    ensures Enabled(c, l, SpoolOwn(t, accepts)) ==> var event := l.phases[t].event; var now := Next(c, l, SpoolOwn(t, accepts));
      now.places[event] == (if accepts then Q.InSpool else Q.Refused) && now.told[event] == if accepts then Q.Spooled else Q.SpoolRefused
    ensures Enabled(c, l, AccountFor(t, accepts)) ==> var victim := l.base.evictors[t].event; var now := Next(c, l, AccountFor(t, accepts));
      now.places[victim] == if victim.delivery != Q.Critical then Q.Dropped else if accepts then Q.InSpool else Q.Refused
  {
    hide T.Enabled;
  }
}

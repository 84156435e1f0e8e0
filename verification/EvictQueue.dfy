/** The worker backend's bounded queue: which item eviction removes, and the ledger of one producer's
    emits under queue pressure. */
module EvictQueue {
  import opened Keys

  datatype Delivery = Critical | Telemetry | Debug

  /** `_EVICT_SCAN_LIMIT`: items inspected per eviction. */
  const SCAN_LIMIT := 256

  /** A queued event, or a control sentinel of `flush` or `close`. */
  datatype Item = Event(id: nat, delivery: Delivery) | Control(request: nat)

  predicate Ordinary(item: Item) {
    item.Event? && !item.delivery.Critical?
  }

  predicate CriticalEvent(item: Item) {
    item.Event? && item.delivery.Critical?
  }

  /** `k` is the item to give up: the oldest non-critical event of the scanned window, or its oldest
      critical event when the window holds no other event. */
  predicate IsVictim(items: seq<Item>, k: nat) {
    && k < Min(|items|, SCAN_LIMIT)
    && items[k].Event?
    && (forall j :: 0 <= j < k ==> !Ordinary(items[j]))
    && (CriticalEvent(items[k]) ==>
          forall j :: 0 <= j < Min(|items|, SCAN_LIMIT) ==> !Ordinary(items[j]) && (j < k ==> items[j].Control?))
  }

  predicate NoVictim(items: seq<Item>) {
    forall j :: 0 <= j < Min(|items|, SCAN_LIMIT) ==> items[j].Control?
  }

  /** At most one item qualifies. */
  lemma VictimUnique(items: seq<Item>, j: nat, k: nat)
    requires IsVictim(items, j) && IsVictim(items, k)
    ensures j == k
  {
  }

  /** Who is given up, in terms of deliveries: a non-critical event only when all events before it are critical, a
      critical one only when it is the first event and no event of the first 256 items is anything else. */
  lemma VictimMeans(items: seq<Item>, k: nat)
    requires IsVictim(items, k)
    ensures k < |items| && k < 256 && items[k].Event?
    ensures items[k].delivery != Critical ==> forall j :: 0 <= j < k && items[j].Event? ==> items[j].delivery == Critical
    ensures items[k].delivery == Critical ==>
      && (forall j :: 0 <= j < |items| && j < 256 && items[j].Event? ==> items[j].delivery == Critical)
      && (forall j :: 0 <= j < k ==> items[j].Control?)
  {
    assert forall j :: 0 <= j < k ==> !Ordinary(items[j]);
  }

  /** The scan of `_evict_oldest_event`. */
  method FindVictim(items: seq<Item>) returns (found: bool, k: nat)
    ensures found ==> IsVictim(items, k)
    ensures !found ==> NoVictim(items)
  {
    var critical, hasCritical := 0, false;
    var i := 0;
    while i < Min(|items|, SCAN_LIMIT)
      invariant 0 <= i <= Min(|items|, SCAN_LIMIT)
      invariant forall j :: 0 <= j < i ==> !Ordinary(items[j])
      invariant hasCritical ==> critical < i && CriticalEvent(items[critical])
      invariant hasCritical ==> forall j :: 0 <= j < critical ==> items[j].Control?
      invariant !hasCritical ==> forall j :: 0 <= j < i ==> items[j].Control?
    {
      if items[i].Event? {
        if !items[i].delivery.Critical? {
          return true, i;
        }
        if !hasCritical {
          critical, hasCritical := i, true;
        }
      }
      i := i + 1;
    }
    return hasCritical, critical;
  }

  /** `EmitResult`, by what it reports. */
  datatype EmitResult = Enqueued | Spooled | SpoolRefused | QueueFull

  /** Where an emitted event is: with its producer, queued, with a producer that evicted it, with a worker, or
      in one of four final places.  A single place per event is the ledger: nothing is lost or doubled. */
  datatype Place = WithEmitter | InQueue | InTransit | WithWorker | Delivered | InSpool | Refused | Dropped

  type Places = map<Item, Place>

  ghost function At(places: Places, p: Place): set<Item> {
    set x | x in places && places[x] == p
  }

  predicate IsDebug(x: Item) {
    x.Event? && x.delivery.Debug?
  }

  ghost function DebugOf(s: set<Item>): set<Item> {
    set x | x in s && IsDebug(x)
  }

  ghost predicate QueueAgrees(queue: seq<Item>, places: Places) {
    && (forall i, j :: 0 <= i < j < |queue| ==> queue[i] != queue[j])
    && (forall x :: x in queue && x.Event? ==> x in places && places[x] == InQueue)
    && (forall x :: x in places ==> x.Event? && (places[x] == InQueue ==> x in queue))
  }

  /** Critical events are never counted dropped; only they are spooled. */
  ghost predicate Lawful(places: Places) {
    forall x :: x in places ==>
      && (places[x] == Dropped ==> Ordinary(x))
      && (places[x] == InSpool || places[x] == Refused ==> CriticalEvent(x))
  }

  ghost predicate Counted(places: Places, spooled: nat, errors: nat, debug: nat, telemetry: nat) {
    && spooled == |At(places, InSpool)|
    && errors == |At(places, Refused)|
    && debug == |DebugOf(At(places, Dropped))|
    && debug + telemetry == |At(places, Dropped)|
  }

  // ---------------------------------------------------------------- drains

  /** `is_remote` and `spool_on_failure`. */
  datatype Drain = Drain(remote: bool, spoolsOnFailure: bool)

  /** What a drain made of a batch; after a failure, which critical events its spool accepts. */
  datatype Outcome = Sent | Failed(accepts: Item -> bool)

  /** A call of `spool_event`, with its answer. */
  datatype Offer = Offer(event: Item, accepted: bool)

  /** The calls that `deliver` makes for a failed batch, in order. */
  function SpoolOffers(accepts: Item -> bool, batch: seq<Item>): seq<Offer> {
    if batch == [] then []
    else
      var x := batch[|batch| - 1];
      SpoolOffers(accepts, batch[..|batch| - 1]) + if CriticalEvent(x) then [Offer(x, accepts(x))] else []
  }

  lemma SpoolOffersStart(accepts: Item -> bool, batch: seq<Item>)
    ensures SpoolOffers(accepts, batch[..0]) == []
  {
  }

  lemma SpoolOffersWith(accepts: Item -> bool, batch: seq<Item>, x: Item)
    ensures SpoolOffers(accepts, batch + [x])
         == if CriticalEvent(x) then SpoolOffers(accepts, batch) + [Offer(x, accepts(x))] else SpoolOffers(accepts, batch)
  {
    assert (batch + [x])[..|batch|] == batch;
  }

  lemma OfferedWith(offers: seq<Offer>, o: Offer, x: Item)
    ensures OfferedTimes(offers + [o], x) == OfferedTimes(offers, x) + if o.event == x then 1 else 0
  {
    assert (offers + [o])[..|offers|] == offers;
  }

  function DrainOffers(drain: Drain, outcome: Outcome, batch: seq<Item>): seq<Offer> {
    if outcome.Failed? && drain.remote && drain.spoolsOnFailure then SpoolOffers(outcome.accepts, batch) else []
  }

  /** Offers with the given answer. */
  function Answered(offers: seq<Offer>, accepted: bool): nat {
    if offers == [] then 0
    else Answered(offers[..|offers| - 1], accepted) + if offers[|offers| - 1].accepted == accepted then 1 else 0
  }

  lemma AnsweredWith(offers: seq<Offer>, o: Offer, accepted: bool)
    ensures Answered(offers + [o], accepted) == Answered(offers, accepted) + if o.accepted == accepted then 1 else 0
  {
    assert (offers + [o])[..|offers|] == offers;
  }

  /** How often an event was offered. */
  function OfferedTimes(offers: seq<Offer>, x: Item): nat {
    if offers == [] then 0
    else OfferedTimes(offers[..|offers| - 1], x) + if offers[|offers| - 1].event == x then 1 else 0
  }

  /** What a drain's spool has to be offered: after a failure of a remote drain that wants it, every critical
      event of the batch, each time it occurs, and nothing else; otherwise nothing. */
  ghost predicate RightlyOffered(drain: Drain, outcome: Outcome, batch: seq<Item>, offers: seq<Offer>) {
    if outcome.Failed? && drain.remote && drain.spoolsOnFailure then
      && (forall x :: OfferedTimes(offers, x) == if x.Event? && x.delivery == Critical then multiset(batch)[x] else 0)
      && (forall o :: o in offers ==> o.accepted == outcome.accepts(o.event))
    else offers == []
  }

  lemma OffersAreRight(drain: Drain, outcome: Outcome, batch: seq<Item>)
    ensures RightlyOffered(drain, outcome, batch, DrainOffers(drain, outcome, batch))
  {
    if outcome.Failed? && drain.remote && drain.spoolsOnFailure {
      forall x {
        CriticalsOffered(outcome.accepts, batch, x);
      }
    }
  }

  lemma {:induction false} CriticalsOffered(accepts: Item -> bool, batch: seq<Item>, x: Item)
    ensures OfferedTimes(SpoolOffers(accepts, batch), x) == if x.Event? && x.delivery == Critical then multiset(batch)[x] else 0
    ensures forall o :: o in SpoolOffers(accepts, batch) ==> o.accepted == accepts(o.event)
  {
    if batch != [] {
      var n := |batch| - 1;
      CriticalsOffered(accepts, batch[..n], x);
      assert batch == batch[..n] + [batch[n]];
      SpoolOffersWith(accepts, batch[..n], batch[n]);
      OfferedWith(SpoolOffers(accepts, batch[..n]), Offer(batch[n], accepts(batch[n])), x);
      hide SpoolOffers, OfferedTimes;
    }
  }

  /** The answers of several spools together. */
  function AllAnswered(offers: seq<seq<Offer>>, accepted: bool): nat {
    if offers == [] then 0
    else AllAnswered(offers[..|offers| - 1], accepted) + Answered(offers[|offers| - 1], accepted)
  }

  lemma AllAnsweredWith(offers: seq<seq<Offer>>, more: seq<Offer>, accepted: bool)
    ensures AllAnswered(offers + [more], accepted) == AllAnswered(offers, accepted) + Answered(more, accepted)
  {
    assert (offers + [more])[..|offers|] == offers;
  }

  class Backend {
    const capacity: nat
    const dropOldest: bool
    var queue: seq<Item>
    var spooledEvents: nat
    var spoolErrors: nat
    var droppedDebug: nat
    var droppedTelemetry: nat
    /** The place of every event handed to `emit`. */
    ghost var places: Places
    /** What `deliver` added to the two spool counters after drain failures. */
    ghost var drainSpooled: nat
    ghost var drainRefused: nat

    constructor (capacity: nat, dropOldest: bool)
      requires capacity > 0
      ensures Valid() && queue == [] && places == map[]
      ensures this.capacity == capacity && this.dropOldest == dropOldest
    {
      this.capacity, this.dropOldest := capacity, dropOldest;
      queue, spooledEvents, spoolErrors, droppedDebug, droppedTelemetry, places := [], 0, 0, 0, 0, map[];
      drainSpooled, drainRefused := 0, 0;
      new;
      assert At(map[], InSpool) == At(map[], Refused) == At(map[], Dropped) == DebugOf(At(map[], Dropped)) == {};
    }

    ghost predicate Valid()
      reads this
    {
      && 0 < capacity && |queue| <= capacity
      && QueueAgrees(queue, places)
      && Lawful(places)
      && drainSpooled <= spooledEvents && drainRefused <= spoolErrors
      && Counted(places, spooledEvents - drainSpooled, spoolErrors - drainRefused, droppedDebug, droppedTelemetry)
    }

    /** `put_nowait` and `_admit`, under the progress lock. */
    method TryPut(event: Item) returns (ok: bool)
      requires Valid() && event.Event? && event !in places
      modifies `queue, `places
      ensures Valid()
      ensures ok == (old(|queue|) < capacity)
      ensures ok ==> queue == old(queue) + [event] && places == old(places)[event := InQueue]
      ensures !ok ==> queue == old(queue) && places == old(places)
    {
      hide QueueAgrees, Lawful, Counted;
      if |queue| >= capacity {
        return false;
      }
      PutKeeps(queue, places, event);
      Moved(places, event, InQueue, spooledEvents - drainSpooled, spoolErrors - drainRefused, droppedDebug, droppedTelemetry);
      queue, places := queue + [event], places[event := InQueue];
      return true;
    }

    /** `_evict_oldest_event`: delete the victim in place; survivors keep their positions. */
    method EvictOldest() returns (found: bool, evicted: Item)
      requires Valid()
      modifies `queue, `places
      ensures Valid()
      ensures found <==> !NoVictim(old(queue))
      ensures !found ==> queue == old(queue) && places == old(places)
      ensures found ==> evicted in old(places) && places == old(places)[evicted := InTransit]
      ensures found ==> RemovedVictim(old(queue), queue, evicted)
    {
      hide QueueAgrees, Lawful, Counted;
      var k;
      found, k := FindVictim(queue);
      if !found {
        evicted := Control(0);
        return;
      }
      evicted := queue[k];
      TakeKeeps(queue, places, k, InTransit);
      Moved(places, evicted, InTransit, spooledEvents - drainSpooled, spoolErrors - drainRefused, droppedDebug, droppedTelemetry);
      queue, places := Without(queue, k), places[evicted := InTransit];
    }

    /** A worker's `get`. */
    method Get() returns (item: Item)
      requires Valid() && queue != []
      modifies `queue, `places
      ensures Valid() && item == old(queue)[0] && queue == old(queue)[1..]
      ensures places == if item.Event? then old(places)[item := WithWorker] else old(places)
    {
      hide QueueAgrees, Lawful, Counted;
      item := queue[0];
      assert Without(queue, 0) == queue[1..];
      TakeKeeps(queue, places, 0, WithWorker);
      if item.Event? {
        Moved(places, item, WithWorker, spooledEvents - drainSpooled, spoolErrors - drainRefused, droppedDebug, droppedTelemetry);
        places := places[item := WithWorker];
      }
      queue := queue[1..];
    }

    /** `deliver`, and the completion of the batch: every drain gets it; `offers` is what the drains' spools
        were offered. */
    method Deliver(batch: seq<Item>, drains: seq<Drain>, outcomes: seq<Outcome>) returns (ghost offers: seq<seq<Offer>>)
      requires Valid() && |outcomes| == |drains| && forall x :: x in batch ==> x in places && places[x] == WithWorker
      modifies `places, `spooledEvents, `spoolErrors, `drainSpooled, `drainRefused
      ensures Valid()
      ensures forall x :: x in places <==> x in old(places)
      ensures forall x :: x in places ==> places[x] == if x in batch then Delivered else old(places)[x]
      ensures |offers| == |drains| && forall d :: 0 <= d < |drains| ==> RightlyOffered(drains[d], outcomes[d], batch, offers[d])
      ensures spooledEvents == old(spooledEvents) + AllAnswered(offers, true)
      ensures spoolErrors == old(spoolErrors) + AllAnswered(offers, false)
    {
      hide QueueAgrees, Lawful, Counted, RightlyOffered;
      offers := [];
      var d := 0;
      while d < |drains|
        invariant 0 <= d == |offers| <= |drains| && Valid() && places == old(places)
        invariant forall e :: 0 <= e < d ==> RightlyOffered(drains[e], outcomes[e], batch, offers[e])
        invariant spooledEvents == old(spooledEvents) + AllAnswered(offers, true)
        invariant spoolErrors == old(spoolErrors) + AllAnswered(offers, false)
      {
        ghost var made: seq<Offer> := [];
        if outcomes[d].Failed? && drains[d].remote && drains[d].spoolsOnFailure {
          made := SpoolBatch(batch, outcomes[d].accepts);
        }
        OffersAreRight(drains[d], outcomes[d], batch);
        AllAnsweredWith(offers, made, true);
        AllAnsweredWith(offers, made, false);
        offers := offers + [made];
        d := d + 1;
      }
      DeliveredKeeps(queue, places, batch, spooledEvents - drainSpooled, spoolErrors - drainRefused, droppedDebug, droppedTelemetry);
      places := map x | x in places :: if x in batch then Delivered else places[x];
    }

    /** The loop of `deliver` over a batch that a drain failed to take. */
    method SpoolBatch(batch: seq<Item>, accepts: Item -> bool) returns (ghost offers: seq<Offer>)
      requires Valid()
      modifies `spooledEvents, `spoolErrors, `drainSpooled, `drainRefused
      ensures Valid() && offers == SpoolOffers(accepts, batch)
      ensures spooledEvents == old(spooledEvents) + Answered(offers, true)
      ensures spoolErrors == old(spoolErrors) + Answered(offers, false)
    {
      offers := [];
      assert Answered(offers, true) == Answered(offers, false) == 0;
      hide QueueAgrees, Lawful, Counted, Answered, SpoolOffers;
      SpoolOffersStart(accepts, batch);
      var i := 0;
      while i < |batch|
        invariant 0 <= i <= |batch| && Valid() && offers == SpoolOffers(accepts, batch[..i])
        invariant spooledEvents == old(spooledEvents) + Answered(offers, true)
        invariant spoolErrors == old(spoolErrors) + Answered(offers, false)
      {
        assert batch[..i + 1] == batch[..i] + [batch[i]];
        SpoolOffersWith(accepts, batch[..i], batch[i]);
        if batch[i].Event? && batch[i].delivery.Critical? {
          AnsweredWith(offers, Offer(batch[i], accepts(batch[i])), true);
          AnsweredWith(offers, Offer(batch[i], accepts(batch[i])), false);
          offers := offers + [Offer(batch[i], accepts(batch[i]))];
          if accepts(batch[i]) {
            spooledEvents, drainSpooled := spooledEvents + 1, drainSpooled + 1;
          } else {
            spoolErrors, drainRefused := spoolErrors + 1, drainRefused + 1;
          }
        }
        i := i + 1;
      }
      assert batch[..i] == batch;
    }

    /** `spool_event`, for a critical event that was evicted or never queued. */
    method SpoolEvent(event: Item, spoolAccepts: bool)
      requires Valid() && CriticalEvent(event) && NotQueued(event, places)
      modifies `places, `spooledEvents, `spoolErrors
      ensures Valid() && places == old(places)[event := if spoolAccepts then InSpool else Refused]
    {
      hide QueueAgrees, Lawful, Counted;
      ElsewhereKeeps(queue, places, event, if spoolAccepts then InSpool else Refused);
      Settle(places, event, if spoolAccepts then InSpool else Refused, spooledEvents - drainSpooled, spoolErrors - drainRefused, droppedDebug, droppedTelemetry);
      if spoolAccepts {
        places, spooledEvents := places[event := InSpool], spooledEvents + 1;
      } else {
        places, spoolErrors := places[event := Refused], spoolErrors + 1;
      }
    }

    /** `_drop_noncritical`, for an event that was evicted or never queued. */
    method Drop(event: Item)
      requires Valid() && Ordinary(event) && NotQueued(event, places)
      modifies `places, `droppedDebug, `droppedTelemetry
      ensures Valid() && places == old(places)[event := Dropped]
    {
      hide QueueAgrees, Lawful, Counted;
      ElsewhereKeeps(queue, places, event, Dropped);
      Settle(places, event, Dropped, spooledEvents - drainSpooled, spoolErrors - drainRefused, droppedDebug, droppedTelemetry);
      places := places[event := Dropped];
      if event.delivery.Debug? {
        droppedDebug := droppedDebug + 1;
      } else {
        droppedTelemetry := droppedTelemetry + 1;
      }
    }

    /** What `emit` does with the event it evicted. */
    method AccountEvicted(evicted: Item, spoolAccepts: bool)
      requires Valid() && evicted.Event? && evicted in places && places[evicted] == InTransit
      modifies `places, `spooledEvents, `spoolErrors, `droppedDebug, `droppedTelemetry
      ensures Valid() && places == old(places)[evicted := Final(evicted, spoolAccepts)]
    {
      hide QueueAgrees, Lawful, Counted;
      if evicted.delivery.Critical? {
        SpoolEvent(evicted, spoolAccepts);
      } else {
        Drop(evicted);
      }
    }

    /** Other producers' attempts between the eviction and the second try; some may find the queue full. */
    method PutAll(racing: seq<Item>)
      requires Valid() && Unseen(racing, places)
      modifies `queue, `places
      ensures Valid()
      ensures old(queue) <= queue && Extends(places, old(places), racing)
      ensures racing == [] ==> queue == old(queue)
    {
      hide QueueAgrees, Lawful, Counted;
      var i := 0;
      while i < |racing|
        invariant 0 <= i <= |racing|
        invariant Valid() && old(queue) <= queue
        invariant Extends(places, old(places), racing[..i])
        invariant i == 0 ==> queue == old(queue)
      {
        assert racing[..i + 1] == racing[..i] + [racing[i]];
        assert racing[i] !in racing[..i];
        var ok := TryPut(racing[i]);
        i := i + 1;
      }
      assert racing[..i] == racing;
    }

    /** `emit`.  `racing` are the events other producers put between the eviction and the second try. */
    method Emit(event: Item, spoolAccepts: bool, racing: seq<Item>) returns (r: EmitResult)
      requires Valid() && event.Event? && event !in places
      requires Unseen(racing, places) && event !in racing
      modifies this
      ensures Valid()
      ensures event in places && places[event] == ResultPlace(r)
      ensures if event.delivery == Critical then r != QueueFull else r == Enqueued || r == QueueFull
      ensures old(|queue|) < capacity ==> r == Enqueued && queue == old(queue) + [event]
      ensures old(|queue|) == capacity && (CriticalEvent(event) || !dropOldest) ==>
        queue == old(queue) && places == old(places)[event := Final(event, spoolAccepts)]
      ensures old(|queue|) == capacity && Ordinary(event) && dropOldest && NoVictim(old(queue)) ==>
        queue == old(queue) && r == QueueFull
      ensures old(|queue|) == capacity && Ordinary(event) && dropOldest && !NoVictim(old(queue)) ==>
        VictimGone(old(queue), queue, old(places), places, spoolAccepts) && (racing == [] ==> r == Enqueued)
    {
      hide QueueAgrees, Lawful, Counted, NoVictim, VictimGone;
      ghost var queue0, places0 := queue, places;
      var ok := TryPut(event);
      if ok {
        return Enqueued;
      }
      if event.delivery.Critical? {
        SpoolEvent(event, spoolAccepts);
        return if spoolAccepts then Spooled else SpoolRefused;
      }
      if dropOldest {
        ok := EvictAndRetry(event, spoolAccepts, racing);
        if ok {
          return Enqueued;
        }
      }
      ghost var places1 := places;
      Drop(event);
      if !NoVictim(queue0) && dropOldest {
        VictimStaysGone(queue0, queue, places0, places1, spoolAccepts, event);
      }
      return QueueFull;
    }

    /** The `drop_oldest` branch. */
    method EvictAndRetry(event: Item, spoolAccepts: bool, racing: seq<Item>) returns (ok: bool)
      requires Valid() && event.Event? && event !in places && |queue| == capacity
      requires Unseen(racing, places) && event !in racing
      modifies this
      ensures Valid()
      ensures NoVictim(old(queue)) ==> !ok && queue == old(queue) && places == old(places)
      ensures !NoVictim(old(queue)) ==>
        VictimGone(old(queue), queue, old(places), places, spoolAccepts) && (racing == [] ==> ok)
      ensures if ok then event in places && places[event] == InQueue else event !in places
    {
      hide QueueAgrees, Lawful, Counted, NoVictim;
      ghost var queue0, places0 := queue, places;
      var found, evicted := EvictOldest();
      if !found {
        ok := TryPut(event);
        return;
      }
      ghost var k: nat :| k < |queue0| && IsVictim(queue0, k) && evicted == queue0[k] && queue == Without(queue0, k);
      hide IsVictim;
      AccountEvicted(evicted, spoolAccepts);
      PutAll(racing);
      ok := TryPut(event);
      assert VictimAt(k, queue0, queue, places0, places, spoolAccepts);
    }
  }

  /** The event at `k` of the old queue was evicted and settled; everything else kept its place. */
  ghost predicate VictimAt(k: nat, before: seq<Item>, after: seq<Item>, was: Places, now: Places, spoolAccepts: bool) {
    && k < |before| && before[k].Event?
    && Without(before, k) <= after
    && before[k] in now && now[before[k]] == Final(before[k], spoolAccepts)
    && forall x :: x in was && x != before[k] ==> x in now && now[x] == was[x]
  }

  ghost predicate VictimGone(before: seq<Item>, after: seq<Item>, was: Places, now: Places, spoolAccepts: bool) {
    exists k: nat :: k < |before| && IsVictim(before, k) && VictimAt(k, before, after, was, now, spoolAccepts)
  }

  lemma VictimStaysGone(before: seq<Item>, after: seq<Item>, was: Places, now: Places, spoolAccepts: bool, event: Item)
    requires VictimGone(before, after, was, now, spoolAccepts) && event !in was && event !in now
    ensures VictimGone(before, after, was, now[event := Dropped], spoolAccepts)
  {
    var k: nat :| k < |before| && IsVictim(before, k) && VictimAt(k, before, after, was, now, spoolAccepts);
    assert VictimAt(k, before, after, was, now[event := Dropped], spoolAccepts);
  }

  /** Events no producer has handed over yet, each once. */
  ghost predicate Unseen(racing: seq<Item>, places: Places) {
    && (forall x :: x in racing ==> x.Event? && x !in places)
    && (forall i, j :: 0 <= i < j < |racing| ==> racing[i] != racing[j])
  }

  /** Only events of `racing` were added, to the queue. */
  ghost predicate Extends(places: Places, before: Places, racing: seq<Item>) {
    && (forall x :: x in before ==> x in places && places[x] == before[x])
    && (forall x :: x in places && x !in before ==> x in racing && places[x] == InQueue)
  }

  function ResultPlace(r: EmitResult): Place {
    match r
    case Enqueued => InQueue
    case Spooled => InSpool
    case SpoolRefused => Refused
    case QueueFull => Dropped
  }

  /** Where an event ends that cannot stay in the queue. */
  function Final(event: Item, spoolAccepts: bool): Place
    requires event.Event?
  {
    if !event.delivery.Critical? then Dropped else if spoolAccepts then InSpool else Refused
  }

  predicate NotQueued(event: Item, places: Places) {
    event in places ==> places[event] == InTransit
  }

  /** One victim left the queue; the others kept their order. */
  ghost predicate RemovedVictim(before: seq<Item>, after: seq<Item>, evicted: Item) {
    exists k: nat :: k < |before| && IsVictim(before, k) && evicted == before[k] && after == Without(before, k)
  }

  // ---------------------------------------------------------------- ledger steps

  lemma PutKeeps(queue: seq<Item>, places: Places, x: Item)
    requires QueueAgrees(queue, places) && x.Event? && x !in places
    ensures QueueAgrees(queue + [x], places[x := InQueue])
  {
    assert x !in queue;
  }

  lemma TakeKeeps(queue: seq<Item>, places: Places, k: nat, p: Place)
    requires QueueAgrees(queue, places) && k < |queue| && p != InQueue
    ensures QueueAgrees(Without(queue, k), if queue[k].Event? then places[queue[k] := p] else places)
    ensures queue[k].Event? ==> queue[k] in places && places[queue[k]] == InQueue
  {
    var rest := Without(queue, k);
    assert forall i :: 0 <= i < |rest| ==> rest[i] == queue[if i < k then i else i + 1];
    forall x | x in queue && x != queue[k] ensures x in rest {
      var i :| 0 <= i < |queue| && queue[i] == x;
      assert rest[if i < k then i else i - 1] == x;
    }
  }

  lemma ElsewhereKeeps(queue: seq<Item>, places: Places, x: Item, p: Place)
    requires QueueAgrees(queue, places) && NotQueued(x, places) && x.Event? && p != InQueue
    ensures QueueAgrees(queue, places[x := p])
  {
  }

  lemma AtWith(places: Places, x: Item, p: Place, q: Place)
    requires x in places ==> places[x] != q
    ensures x !in At(places, q)
    ensures At(places[x := p], q) == if p == q then At(places, q) + {x} else At(places, q)
  {
  }

  lemma AtUpdated(places: Places, x: Item, p: Place, q: Place)
    requires x in places ==> places[x] != q
    ensures |At(places[x := p], q)| == |At(places, q)| + if p == q then 1 else 0
  {
    AtWith(places, x, p, q);
    hide At;
  }

  lemma DebugWith(s: set<Item>, x: Item)
    requires x !in s
    ensures |DebugOf(s + {x})| == |DebugOf(s)| + if IsDebug(x) then 1 else 0
  {
    hide IsDebug;
    assert DebugOf(s + {x}) == if IsDebug(x) then DebugOf(s) + {x} else DebugOf(s);
  }

  lemma DebugUpdated(places: Places, x: Item, p: Place, q: Place)
    requires x in places ==> places[x] != q
    ensures |DebugOf(At(places[x := p], q))| == |DebugOf(At(places, q))| + if p == q && IsDebug(x) then 1 else 0
  {
    AtWith(places, x, p, q);
    DebugWith(At(places, q), x);
    hide At, DebugOf, IsDebug;
  }

  /** No counter of the emitting side speaks of the place. */
  predicate Uncounted(p: Place) {
    !p.InSpool? && !p.Refused? && !p.Dropped?
  }

  /** Moves between producers, queue, workers and drains change no such counter. */
  lemma Moved(places: Places, x: Item, p: Place, spooled: nat, errors: nat, debug: nat, telemetry: nat)
    requires Counted(places, spooled, errors, debug, telemetry) && Lawful(places) && x.Event?
    requires Uncounted(p) && (x in places ==> Uncounted(places[x]))
    ensures Counted(places[x := p], spooled, errors, debug, telemetry) && Lawful(places[x := p])
  {
    AllUpdated(places, x, p);
    hide At, DebugOf;
  }

  lemma AllUpdated(places: Places, x: Item, p: Place)
    requires x in places ==> Uncounted(places[x])
    ensures |At(places[x := p], InSpool)| == |At(places, InSpool)| + if p == InSpool then 1 else 0
    ensures |At(places[x := p], Refused)| == |At(places, Refused)| + if p == Refused then 1 else 0
    ensures |At(places[x := p], Dropped)| == |At(places, Dropped)| + if p == Dropped then 1 else 0
    ensures |DebugOf(At(places[x := p], Dropped))| ==
      |DebugOf(At(places, Dropped))| + if p == Dropped && IsDebug(x) then 1 else 0
  {
    hide At, DebugOf, IsDebug;
    AtUpdated(places, x, p, InSpool);
    AtUpdated(places, x, p, Refused);
    AtUpdated(places, x, p, Dropped);
    DebugUpdated(places, x, p, Dropped);
  }

  /** A delivered batch leaves the workers. */
  lemma DeliveredKeeps(queue: seq<Item>, places: Places, batch: seq<Item>, spooled: nat, errors: nat, debug: nat, telemetry: nat)
    requires QueueAgrees(queue, places) && Lawful(places) && Counted(places, spooled, errors, debug, telemetry)
    requires forall x :: x in batch ==> x in places && places[x] == WithWorker
    ensures var after: Places := map x | x in places :: if x in batch then Delivered else places[x];
      QueueAgrees(queue, after) && Lawful(after) && Counted(after, spooled, errors, debug, telemetry)
  {
    var after: Places := map x | x in places :: if x in batch then Delivered else places[x];
    assert At(after, InSpool) == At(places, InSpool) && At(after, Refused) == At(places, Refused)
           && At(after, Dropped) == At(places, Dropped);
    hide At, DebugOf;
  }

  /** An event that settles moves exactly one counter. */
  lemma Settle(places: Places, x: Item, p: Place, spooled: nat, errors: nat, debug: nat, telemetry: nat)
    requires Counted(places, spooled, errors, debug, telemetry) && Lawful(places) && x.Event?
    requires !Uncounted(p) && (x in places ==> Uncounted(places[x]))
    requires if p.Dropped? then Ordinary(x) else CriticalEvent(x)
    ensures Lawful(places[x := p])
    ensures Counted(places[x := p],
                    if p.InSpool? then spooled + 1 else spooled,
                    if p.Refused? then errors + 1 else errors,
                    if p.Dropped? && x.delivery.Debug? then debug + 1 else debug,
                    if p.Dropped? && !x.delivery.Debug? then telemetry + 1 else telemetry)
  {
    AllUpdated(places, x, p);
    hide At, DebugOf;
  }
}

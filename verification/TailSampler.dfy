/** The tail sampler: bounded per-run buffers, released or dropped when the run ends. */
module TailSampler {
  import opened Keys

  type RunId = nat

  /** `run` is 0 for an event without a run id; `failed` says that the outcome is a failure. */
  datatype Event = Event(id: nat, run: RunId, terminal: bool, failed: bool, duration: Option<real>)

  /** `_interesting`, decided by the last event of the run. */
  predicate Interesting(e: Event, minDuration: real) {
    e.failed || (e.duration.Some? && e.duration.value >= minDuration)
  }

  datatype Buffer = Buffer(events: seq<Event>, updatedAt: int)

  function OfRun(events: seq<Event>, run: RunId): seq<Event> {
    if events == [] then []
    else
      var n := |events| - 1;
      OfRun(events[..n], run) + if events[n].run == run then [events[n]] else []
  }

  lemma {:induction false} OfRunSum(a: seq<Event>, b: seq<Event>, run: RunId)
    ensures OfRun(a + b, run) == OfRun(a, run) + OfRun(b, run)
  {
    if b == [] {
      assert a + b == a;
    } else {
      var n := |b| - 1;
      assert (a + b)[..|a + b| - 1] == a + b[..n];
      OfRunSum(a, b[..n], run);
    }
  }

  lemma {:induction false} OfRunAll(events: seq<Event>, run: RunId, other: RunId)
    requires forall e :: e in events ==> e.run == run
    ensures OfRun(events, other) == if other == run then events else []
  {
    if events != [] {
      var n := |events| - 1;
      assert events == events[..n] + [events[n]];
      assert events[n] in events && forall e :: e in events[..n] ==> e in events;
      OfRunAll(events[..n], run, other);
    }
  }

  function Buffered(buffers: map<RunId, Buffer>, run: RunId): seq<Event> {
    if run in buffers then buffers[run].events else []
  }

  /** In processing order, all before position `n`. */
  ghost predicate InOrder(events: seq<Event>, n: nat) {
    && (forall i, j :: 0 <= i < j < |events| ==> events[i].id < events[j].id)
    && (forall i :: 0 <= i < |events| ==> events[i].id < n)
  }

  ghost predicate Owned(buffers: map<RunId, Buffer>) {
    && 0 !in buffers
    && (forall r :: r in buffers ==> buffers[r].events != [])
    && (forall r, e :: r in buffers && e in buffers[r].events ==> e.run == r)
  }

  /** What has come through, or may still come through, of a run: its forwarded events, then its buffer. */
  function Trail(forwarded: seq<Event>, buffers: map<RunId, Buffer>, run: RunId): seq<Event> {
    OfRun(forwarded, run) + Buffered(buffers, run)
  }

  /** The events of a run since it was last closed by a terminal event. */
  function SinceClose(processed: seq<Event>, run: RunId): seq<Event> {
    if processed == [] then []
    else
      var e := processed[|processed| - 1];
      var before := SinceClose(processed[..|processed| - 1], run);
      if e.run != run then before else if e.terminal then [] else before + [e]
  }

  predicate EndsWith(all: seq<Event>, tail: seq<Event>) {
    |tail| <= |all| && all[|all| - |tail|..] == tail
  }

  /** The trail of a run is in processing order. */
  ghost predicate Ordered(forwarded: seq<Event>, buffers: map<RunId, Buffer>, n: nat) {
    forall r: RunId :: r != 0 ==> InOrder(Trail(forwarded, buffers, r), n)
  }

  /** Nothing since the last close of a run is lost: it ends the trail, in order. */
  ghost predicate Covered(processed: seq<Event>, forwarded: seq<Event>, buffers: map<RunId, Buffer>) {
    forall r: RunId :: r != 0 ==> EndsWith(Trail(forwarded, buffers, r), SinceClose(processed, r))
  }

  /** Event ids number the processed events. */
  ghost predicate Numbered(processed: seq<Event>) {
    forall i :: 0 <= i < |processed| ==> processed[i].id == i
  }

  /** Each processed event is forwarded, buffered or dropped, exactly once. */
  ghost predicate Accounted(processed: seq<Event>, forwarded: seq<Event>, buffers: map<RunId, Buffer>, dropped: multiset<Event>) {
    multiset(processed) == multiset(forwarded) + InBuffers(buffers) + dropped
  }

  /** Everything buffered. */
  ghost function InBuffers(buffers: map<RunId, Buffer>): multiset<Event>
    decreases |buffers|
  {
    if buffers == map[] then multiset{}
    else
      var r :| r in buffers;
      multiset(buffers[r].events) + InBuffers(buffers - {r})
  }

  lemma {:induction false} InBuffersAt(buffers: map<RunId, Buffer>, r: RunId)
    requires r in buffers
    ensures InBuffers(buffers) == multiset(buffers[r].events) + InBuffers(buffers - {r})
    decreases |buffers|
  {
    var q :| q in buffers && InBuffers(buffers) == multiset(buffers[q].events) + InBuffers(buffers - {q});
    if q != r {
      InBuffersAt(buffers - {q}, r);
      InBuffersAt(buffers - {r}, q);
      assert buffers - {q} - {r} == buffers - {r} - {q};
      hide InBuffers;
    }
  }

  lemma InOrderWith(events: seq<Event>, e: Event)
    requires InOrder(events, e.id)
    ensures InOrder(events + [e], e.id + 1) && InOrder(events, e.id + 1)
  {
  }

  lemma SinceWith(processed: seq<Event>, e: Event, run: RunId)
    ensures SinceClose(processed + [e], run)
         == if e.run != run then SinceClose(processed, run) else if e.terminal then [] else SinceClose(processed, run) + [e]
  {
    assert (processed + [e])[..|processed|] == processed;
  }

  lemma EndsWithMore(all: seq<Event>, tail: seq<Event>, e: Event)
    requires EndsWith(all, tail)
    ensures EndsWith(all + [e], tail + [e]) && EndsWith(all + [e], [])
  {
    assert (all + [e])[|all| - |tail|..] == all[|all| - |tail|..] + [e];
  }

  /** What one event adds to the trails, whether it is forwarded or buffered. */
  ghost predicate TrailsGrow(forwarded: seq<Event>, buffers: map<RunId, Buffer>, e: Event, sends: seq<Event>, now: map<RunId, Buffer>) {
    forall r: RunId :: r != 0 ==> Trail(sends, now, r) == Trail(forwarded, buffers, r) + if r == e.run then [e] else []
  }

  lemma ForwardTrails(forwarded: seq<Event>, buffers: map<RunId, Buffer>, e: Event)
    requires e.run !in buffers
    ensures TrailsGrow(forwarded, buffers, e, forwarded + [e], buffers)
  {
    forall r: RunId | r != 0 ensures OfRun(forwarded + [e], r) == OfRun(forwarded, r) + if r == e.run then [e] else [] {
      assert (forwarded + [e])[..|forwarded|] == forwarded;
    }
    hide OfRun;
  }

  lemma AppendTrails(forwarded: seq<Event>, buffers: map<RunId, Buffer>, e: Event, now: int)
    ensures TrailsGrow(forwarded, buffers, e, forwarded, Appended(buffers, e, now))
  {
    hide OfRun;
  }

  /** The buffer of the run with the event appended. */
  function Appended(buffers: map<RunId, Buffer>, e: Event, now: int): map<RunId, Buffer> {
    buffers[e.run := Buffer(Buffered(buffers, e.run) + [e], now)]
  }

  lemma GrowKeeps(processed: seq<Event>, forwarded: seq<Event>, buffers: map<RunId, Buffer>, e: Event,
                  sends: seq<Event>, now: map<RunId, Buffer>)
    requires TrailsGrow(forwarded, buffers, e, sends, now) && e.id == |processed|
    requires Ordered(forwarded, buffers, |processed|) && Covered(processed, forwarded, buffers)
    ensures Ordered(sends, now, |processed| + 1) && Covered(processed + [e], sends, now)
    ensures e.run != 0 ==> EndsWith(Trail(sends, now, e.run), SinceClose(processed, e.run) + [e])
  {
    forall r: RunId | r != 0
      ensures InOrder(Trail(sends, now, r), |processed| + 1)
      ensures EndsWith(Trail(sends, now, r), SinceClose(processed + [e], r))
      ensures r == e.run ==> EndsWith(Trail(sends, now, r), SinceClose(processed, r) + [e])
    {
      var was := Trail(forwarded, buffers, r);
      SinceWith(processed, e, r);
      InOrderWith(was, e);
      EndsWithMore(was, SinceClose(processed, r), e);
      hide Trail, InOrder, SinceClose, EndsWith;
      assert was + [] == was;
    }
  }

  lemma AppendAccounted(buffers: map<RunId, Buffer>, e: Event, now: int)
    ensures InBuffers(Appended(buffers, e, now)) == InBuffers(buffers) + multiset{e}
  {
    var next := Appended(buffers, e, now);
    InBuffersAt(next, e.run);
    assert next - {e.run} == buffers - {e.run};
    BufferGrows(Buffered(buffers, e.run), e);
    RestOfBuffers(buffers, e.run);
    hide InBuffers;
  }

  lemma BufferGrows(events: seq<Event>, e: Event)
    ensures multiset(events + [e]) == multiset(events) + multiset{e}
  {
  }

  lemma RestOfBuffers(buffers: map<RunId, Buffer>, run: RunId)
    ensures InBuffers(buffers) == multiset(Buffered(buffers, run)) + InBuffers(buffers - {run})
  {
    if run in buffers {
      InBuffersAt(buffers, run);
    } else {
      assert buffers - {run} == buffers;
    }
  }

  lemma AppendOwned(buffers: map<RunId, Buffer>, e: Event, now: int)
    requires Owned(buffers) && e.run != 0
    ensures Owned(Appended(buffers, e, now))
  {
  }

  /** Releasing a buffer leaves every trail as it is. */
  lemma ReleaseTrails(forwarded: seq<Event>, buffers: map<RunId, Buffer>, run: RunId)
    requires Owned(buffers) && run in buffers
    ensures forall r: RunId :: r != 0 ==> Trail(forwarded + buffers[run].events, buffers - {run}, r) == Trail(forwarded, buffers, r)
  {
    forall r: RunId | r != 0
      ensures Trail(forwarded + buffers[run].events, buffers - {run}, r) == Trail(forwarded, buffers, r)
    {
      ReleaseTrail(forwarded, buffers, run, r);
    }
  }

  lemma ReleaseTrail(forwarded: seq<Event>, buffers: map<RunId, Buffer>, run: RunId, r: RunId)
    requires Owned(buffers) && run in buffers
    ensures Trail(forwarded + buffers[run].events, buffers - {run}, r) == Trail(forwarded, buffers, r)
  {
    var events := buffers[run].events;
    OfRunSum(forwarded, events, r);
    OfRunAll(events, run, r);
    hide OfRun;
    if r == run {
      assert Buffered(buffers - {run}, r) == [];
    } else {
      assert Buffered(buffers - {run}, r) == Buffered(buffers, r);
      assert OfRun(forwarded, r) + [] == OfRun(forwarded, r);
    }
  }

  lemma SameTrails(processed: seq<Event>, forwarded: seq<Event>, buffers: map<RunId, Buffer>, sends: seq<Event>, now: map<RunId, Buffer>)
    requires Ordered(forwarded, buffers, |processed|) && Covered(processed, forwarded, buffers)
    requires forall r: RunId :: r != 0 ==> Trail(sends, now, r) == Trail(forwarded, buffers, r)
    ensures Ordered(sends, now, |processed|) && Covered(processed, sends, now)
  {
    hide Trail, InOrder, SinceClose, EndsWith;
  }

  /** Dropping the buffer of a run that has just been closed. */
  lemma DropKeeps(processed: seq<Event>, forwarded: seq<Event>, buffers: map<RunId, Buffer>, run: RunId)
    requires Ordered(forwarded, buffers, |processed|) && Covered(processed, forwarded, buffers)
    requires SinceClose(processed, run) == []
    ensures Ordered(forwarded, buffers - {run}, |processed|) && Covered(processed, forwarded, buffers - {run})
  {
    forall r: RunId | r != 0
      ensures InOrder(Trail(forwarded, buffers - {run}, r), |processed|)
      ensures EndsWith(Trail(forwarded, buffers - {run}, r), SinceClose(processed, r))
    {
      if r == run {
        PrefixInOrder(OfRun(forwarded, r), Buffered(buffers, r), |processed|);
      } else {
        assert Trail(forwarded, buffers - {run}, r) == Trail(forwarded, buffers, r);
      }
    }
  }

  lemma PrefixInOrder(a: seq<Event>, b: seq<Event>, n: nat)
    requires InOrder(a + b, n)
    ensures InOrder(a, n) && InOrder(a + [], n)
  {
    assert forall i :: 0 <= i < |a| ==> a[i] == (a + b)[i];
    assert a + [] == a;
  }

  /** The ledger of the sampler: nothing is lost, doubled or reordered within a run. */
  ghost predicate Sound(processed: seq<Event>, forwarded: seq<Event>, buffers: map<RunId, Buffer>, dropped: multiset<Event>) {
    && Owned(buffers)
    && Numbered(processed)
    && Ordered(forwarded, buffers, |processed|)
    && Covered(processed, forwarded, buffers)
    && Accounted(processed, forwarded, buffers, dropped)
  }

  lemma SoundForward(processed: seq<Event>, forwarded: seq<Event>, buffers: map<RunId, Buffer>, dropped: multiset<Event>, e: Event)
    requires Sound(processed, forwarded, buffers, dropped) && e.id == |processed| && e.run !in buffers
    ensures Sound(processed + [e], forwarded + [e], buffers, dropped)
    ensures e.run != 0 ==> EndsWith(OfRun(forwarded + [e], e.run), SinceClose(processed, e.run) + [e])
  {
    ForwardTrails(forwarded, buffers, e);
    GrowKeeps(processed, forwarded, buffers, e, forwarded + [e], buffers);
    NotBuffered(forwarded + [e], buffers, e.run);
    BufferGrows(processed, e);
    BufferGrows(forwarded, e);
    hide Ordered, Covered, Owned, Trail, TrailsGrow, EndsWith, SinceClose, InBuffers, OfRun;
  }

  lemma SoundAppend(processed: seq<Event>, forwarded: seq<Event>, buffers: map<RunId, Buffer>, dropped: multiset<Event>, e: Event, now: int)
    requires Sound(processed, forwarded, buffers, dropped) && e.id == |processed| && e.run != 0
    ensures Sound(processed + [e], forwarded, Appended(buffers, e, now), dropped)
    ensures EndsWith(Trail(forwarded, Appended(buffers, e, now), e.run), SinceClose(processed, e.run) + [e])
  {
    hide Ordered, Owned, Covered, Trail, TrailsGrow, EndsWith, SinceClose, Appended, Accounted;
    AppendTrails(forwarded, buffers, e, now);
    GrowKeeps(processed, forwarded, buffers, e, forwarded, Appended(buffers, e, now));
    AppendBalanced(processed, forwarded, buffers, dropped, e, now);
    AppendOwned(buffers, e, now);
  }

  lemma AppendBalanced(processed: seq<Event>, forwarded: seq<Event>, buffers: map<RunId, Buffer>, dropped: multiset<Event>, e: Event, now: int)
    requires Accounted(processed, forwarded, buffers, dropped)
    ensures Accounted(processed + [e], forwarded, Appended(buffers, e, now), dropped)
  {
    AppendAccounted(buffers, e, now);
    BufferGrows(processed, e);
    hide InBuffers, Appended;
  }

  lemma SoundRelease(processed: seq<Event>, forwarded: seq<Event>, buffers: map<RunId, Buffer>, dropped: multiset<Event>, run: RunId)
    requires Sound(processed, forwarded, buffers, dropped) && run in buffers
    ensures Sound(processed, forwarded + buffers[run].events, buffers - {run}, dropped)
    ensures OfRun(forwarded + buffers[run].events, run) == Trail(forwarded, buffers, run)
  {
    ReleaseTrails(forwarded, buffers, run);
    ReleaseTrail(forwarded, buffers, run, run);
    NotBuffered(forwarded + buffers[run].events, buffers - {run}, run);
    SameTrails(processed, forwarded, buffers, forwarded + buffers[run].events, buffers - {run});
    InBuffersAt(buffers, run);
    OwnedLess(buffers, run);
    hide Ordered, Covered, Owned, InBuffers, Numbered, Trail, OfRun;
  }

  lemma SoundDrop(processed: seq<Event>, forwarded: seq<Event>, buffers: map<RunId, Buffer>, dropped: multiset<Event>, run: RunId)
    requires Sound(processed, forwarded, buffers, dropped) && run in buffers && SinceClose(processed, run) == []
    ensures Sound(processed, forwarded, buffers - {run}, dropped + multiset(buffers[run].events))
  {
    DropKeeps(processed, forwarded, buffers, run);
    InBuffersAt(buffers, run);
    OwnedLess(buffers, run);
    hide Ordered, Covered, Owned, InBuffers, Numbered;
  }

  /** Whatever has been processed of a run since its last close is forwarded or still buffered, and not
      dropped. */
  lemma NothingLost(processed: seq<Event>, forwarded: seq<Event>, buffers: map<RunId, Buffer>, dropped: multiset<Event>,
                    run: RunId, e: Event)
    requires Numbered(processed) && Covered(processed, forwarded, buffers) && Owned(buffers)
    requires Accounted(processed, forwarded, buffers, dropped) && run != 0 && e in SinceClose(processed, run)
    ensures e in forwarded || e in Buffered(buffers, run)
    ensures e !in dropped
  {
    var since, trail := SinceClose(processed, run), Trail(forwarded, buffers, run);
    assert EndsWith(trail, since);
    var i :| 0 <= i < |since| && since[i] == e;
    assert trail[|trail| - |since|..][i] == e;
    assert e in trail;
    OfRunFrom(forwarded, run, e);
    OnceProcessed(processed, e);
    RestOfBuffers(buffers, run);
    hide InBuffers, OfRun, SinceClose;
    assert multiset(forwarded)[e] + multiset(Buffered(buffers, run))[e] + dropped[e] <= 1;
  }

  lemma {:induction false} OfRunFrom(events: seq<Event>, run: RunId, e: Event)
    ensures e in OfRun(events, run) <==> e in events && e.run == run
  {
    if events != [] {
      var n := |events| - 1;
      OfRunFrom(events[..n], run, e);
      assert events == events[..n] + [events[n]];
    }
  }

  lemma {:induction false} OnceProcessed(processed: seq<Event>, e: Event)
    requires Numbered(processed)
    ensures multiset(processed)[e] <= 1
  {
    if processed != [] {
      var n := |processed| - 1;
      OnceProcessed(processed[..n], e);
      assert processed == processed[..n] + [processed[n]];
      if e == processed[n] {
        assert forall i :: 0 <= i < n ==> processed[..n][i].id != e.id;
        assert e !in processed[..n];
      }
    }
  }

  class Sampler {
    const maxRuns: nat
    const maxRunEvents: nat
    const maxAge: int
    const minDuration: real
    var buffers: map<RunId, Buffer>
    /** Everything handed to `emit`, in order. */
    ghost var forwarded: seq<Event>
    ghost var dropped: multiset<Event>
    /** Everything processed; event ids number it. */
    ghost var processed: seq<Event>

    constructor (maxRuns: nat, maxRunEvents: nat, maxAge: int, minDuration: real)
      requires maxRunEvents > 0
      ensures Valid() && buffers == map[] && processed == [] && forwarded == []
    {
      this.maxRuns, this.maxRunEvents, this.maxAge, this.minDuration := maxRuns, maxRunEvents, maxAge, minDuration;
      buffers, forwarded, dropped, processed := map[], [], multiset{}, [];
    }

    ghost predicate Valid()
      reads this
    {
      && maxRunEvents > 0
      && |buffers| <= maxRuns
      && (forall r :: r in buffers ==> |buffers[r].events| <= maxRunEvents)
      && Sound(processed, forwarded, buffers, dropped)
    }

    /** `_release`. */
    method Release(run: RunId)
      requires Sound(processed, forwarded, buffers, dropped) && run in buffers
      modifies `buffers, `forwarded
      ensures buffers == old(buffers) - {run} && forwarded == old(forwarded) + old(buffers[run].events)
      ensures Sound(processed, forwarded, buffers, dropped) && OfRun(forwarded, run) == old(Trail(forwarded, buffers, run))
    {
      hide Sound, Trail, OfRun;
      SoundRelease(processed, forwarded, buffers, dropped, run);
      var events := buffers[run].events;
      buffers := buffers - {run};
      forwarded := forwarded + events;
    }

    /** A run that ended uninterestingly. */
    method Drop(run: RunId)
      requires Sound(processed, forwarded, buffers, dropped) && run in buffers && SinceClose(processed, run) == []
      modifies `buffers, `dropped
      ensures buffers == old(buffers) - {run} && dropped == old(dropped) + multiset(old(buffers[run].events))
      ensures Sound(processed, forwarded, buffers, dropped)
    {
      hide Sound;
      SoundDrop(processed, forwarded, buffers, dropped, run);
      dropped := dropped + multiset(buffers[run].events);
      buffers := buffers - {run};
    }

    /** The event is handed straight to `emit`. */
    method PassThrough(e: Event)
      requires Valid() && e.id == |processed| && e.run !in buffers
      modifies `forwarded, `processed
      ensures Valid() && processed == old(processed) + [e] && forwarded == old(forwarded) + [e]
      ensures e.run != 0 ==> EndsWith(OfRun(forwarded, e.run), SinceClose(old(processed), e.run) + [e])
    {
      hide Sound, EndsWith, OfRun, SinceClose;
      SoundForward(processed, forwarded, buffers, dropped, e);
      forwarded, processed := forwarded + [e], processed + [e];
    }

    /** The buffer of the run grows by the event. */
    method Keep(e: Event, now: int)
      requires Valid() && e.id == |processed| && e.run != 0 && (e.run in buffers || |buffers| < maxRuns)
      modifies `buffers, `processed
      ensures processed == old(processed) + [e]
      ensures buffers == Appended(old(buffers), e, now) && |buffers| <= maxRuns
      ensures Sound(processed, forwarded, buffers, dropped) && EndsWith(Trail(forwarded, buffers, e.run), SinceClose(old(processed), e.run) + [e])
    {
      hide Sound, EndsWith, Trail, SinceClose;
      SoundAppend(processed, forwarded, buffers, dropped, e, now);
      Grows(buffers, e.run, Buffer(Buffered(buffers, e.run) + [e], now));
      buffers := Appended(buffers, e, now);
      processed := processed + [e];
    }

    /** `process`.  A terminal event that reports a failure, or a run as long as the threshold, has every event of
        its run since the last close forwarded, whatever became of them in between: they are the last the sink
        received of the run.  Any other terminal event loses what is still buffered of the run, and itself. */
    method Process(e: Event, now: int)
      requires Valid() && e.id == |processed|
      modifies this
      ensures Valid() && processed == old(processed) + [e]
      ensures e.run == 0 || (e.run !in old(buffers) && old(|buffers|) >= maxRuns) ==>
        forwarded == old(forwarded) + [e] && buffers == old(buffers) && dropped == old(dropped)
      ensures e.run != 0 && (e.run in old(buffers) || old(|buffers|) < maxRuns) ==>
        Closed(old(buffers), buffers, old(forwarded), forwarded, old(dropped), dropped, e, now, maxRunEvents, Interesting(e, minDuration))
      ensures e.run != 0 && e.terminal && (e.failed || (e.duration.Some? && e.duration.value >= minDuration)) ==>
        EndsWith(OfRun(forwarded, e.run), SinceClose(old(processed), e.run) + [e])
      ensures e.run != 0 && e.terminal && !e.failed && (e.duration.None? || e.duration.value < minDuration)
              && (e.run in old(buffers) || old(|buffers|) < maxRuns) && |old(Buffered(buffers, e.run))| < maxRunEvents ==>
        forwarded == old(forwarded) && dropped == old(dropped) + multiset(old(Buffered(buffers, e.run)) + [e])
    {
      assert 0 !in buffers;
      hide Sound, EndsWith, OfRun, Closed, SinceClose;
      if e.run == 0 {
        PassThrough(e);
        return;
      }
      if e.run !in buffers && |buffers| >= maxRuns {
        PassThrough(e);
        return;
      }
      KeepAndSettle(e, now);
      ClosedMeans(old(buffers), buffers, old(forwarded), forwarded, old(dropped), dropped, e, now, maxRunEvents, minDuration);
    }

    /** The event joins the buffer of its run, which may then be released or dropped. */
    method KeepAndSettle(e: Event, now: int)
      requires Valid() && e.id == |processed| && e.run != 0 && (e.run in buffers || |buffers| < maxRuns)
      modifies this
      ensures Valid() && processed == old(processed) + [e]
      ensures Closed(old(buffers), buffers, old(forwarded), forwarded, old(dropped), dropped, e, now, maxRunEvents, Interesting(e, minDuration))
      ensures e.terminal && Interesting(e, minDuration) ==>
        EndsWith(OfRun(forwarded, e.run), SinceClose(old(processed), e.run) + [e])
    {
      hide Sound, Trail, EndsWith, OfRun, Appended;
      SinceWith(processed, e, e.run);
      Keep(e, now);
      AppendedIs(old(buffers), e, now);
      hide SinceClose;
      Settle(e);
    }

    /** The bound on one buffer, then the decision at the end of a run. */
    method Settle(e: Event)
      requires maxRunEvents > 0 && |buffers| <= maxRuns && e.run in buffers
      requires forall r :: r in buffers && r != e.run ==> |buffers[r].events| <= maxRunEvents
      requires Sound(processed, forwarded, buffers, dropped) && (e.terminal ==> SinceClose(processed, e.run) == [])
      modifies `buffers, `forwarded, `dropped
      ensures Valid()
      ensures var events := old(buffers[e.run].events);
        if |events| > maxRunEvents || (e.terminal && Interesting(e, minDuration)) then
          buffers == old(buffers) - {e.run} && forwarded == old(forwarded) + events && dropped == old(dropped)
          && OfRun(forwarded, e.run) == old(Trail(forwarded, buffers, e.run))
        else if !e.terminal then
          buffers == old(buffers) && forwarded == old(forwarded) && dropped == old(dropped)
        else
          buffers == old(buffers) - {e.run} && forwarded == old(forwarded) && dropped == old(dropped) + multiset(events)
    {
      hide Sound, Trail, OfRun;
      SmallerMap(buffers, e.run);
      if |buffers[e.run].events| > maxRunEvents {
        Release(e.run);
        return;
      }
      if !e.terminal {
        return;
      }
      if Interesting(e, minDuration) {
        Release(e.run);
      } else {
        Drop(e.run);
      }
    }

    /** `flush_expired` and, with no age limit, `flush_all`. */
    method Flush(now: int, all: bool) returns (count: nat)
      requires Valid()
      modifies this
      ensures Valid() && dropped == old(dropped) && processed == old(processed)
      ensures forall r :: r in buffers <==> r in old(buffers) && !(all || now - old(buffers)[r].updatedAt > maxAge)
      ensures forall r :: r in buffers ==> buffers[r] == old(buffers)[r]
      ensures all ==> count == old(|buffers|) && multiset(processed) == multiset(forwarded) + dropped
    {
      var stale := set r | r in buffers && (all || now - buffers[r].updatedAt > maxAge);
      assert all ==> stale == buffers.Keys;
      count := |stale|;
      hide Sound;
      while stale != {}
        invariant Valid() && stale <= buffers.Keys && dropped == old(dropped) && processed == old(processed)
        invariant forall r :: r in stale ==> r in old(buffers) && (all || now - old(buffers)[r].updatedAt > maxAge)
        invariant forall r :: r in buffers <==> r in old(buffers) && (r in stale || !(all || now - old(buffers)[r].updatedAt > maxAge))
        invariant forall r :: r in buffers ==> buffers[r] == old(buffers)[r]
        decreases |stale|
      {
        var r :| r in stale;
        SmallerMap(buffers, r);
        Release(r);
        stale := stale - {r};
      }
      if all {
        assert buffers == map[];
        NothingBuffered();
      }
    }

    lemma NothingBuffered()
      requires Sound(processed, forwarded, buffers, dropped) && buffers == map[]
      ensures multiset(processed) == multiset(forwarded) + dropped
    {
    }
  }

  /** What becomes of a buffered run at an event: released when over the bound or when the run ends
      interestingly, dropped when it ends otherwise, kept when it goes on. */
  ghost predicate Closed(was: map<RunId, Buffer>, now: map<RunId, Buffer>, sent: seq<Event>, sends: seq<Event>,
                         lost: multiset<Event>, loses: multiset<Event>, e: Event, at: int, maxRunEvents: nat, keep: bool)
  {
    var events := Buffered(was, e.run) + [e];
    if |events| > maxRunEvents || (e.terminal && keep) then
      now == was - {e.run} && sends == sent + events && loses == lost
    else if !e.terminal then
      now == was[e.run := Buffer(events, at)] && sends == sent && loses == lost
    else
      now == was - {e.run} && sends == sent && loses == lost + multiset(events)
  }

  lemma OwnedLess(buffers: map<RunId, Buffer>, run: RunId)
    requires Owned(buffers)
    ensures Owned(buffers - {run})
  {
  }

  lemma NotBuffered(forwarded: seq<Event>, buffers: map<RunId, Buffer>, run: RunId)
    requires run !in buffers
    ensures Trail(forwarded, buffers, run) == OfRun(forwarded, run)
  {
    assert OfRun(forwarded, run) + [] == OfRun(forwarded, run);
  }

  lemma Grows(buffers: map<RunId, Buffer>, r: RunId, b: Buffer)
    ensures |buffers[r := b]| == |buffers| + if r in buffers then 0 else 1
  {
    assert buffers[r := b].Keys == buffers.Keys + {r};
  }

  lemma SmallerMap(buffers: map<RunId, Buffer>, r: RunId)
    ensures |buffers - {r}| <= |buffers|
  {
    assert (buffers - {r}).Keys == buffers.Keys - {r};
  }

  lemma AppendedIs(buffers: map<RunId, Buffer>, e: Event, now: int)
    ensures var next := Appended(buffers, e, now);
      && e.run in next && next - {e.run} == buffers - {e.run} && next[e.run].events == Buffered(buffers, e.run) + [e]
      && (forall r :: r in next && r != e.run ==> r in buffers && next[r] == buffers[r])
      && next == buffers[e.run := Buffer(Buffered(buffers, e.run) + [e], now)]
  {
  }

  /** A run that ends neither in failure nor late, with room in its buffer, is lost. */
  lemma ClosedMeans(was: map<RunId, Buffer>, now: map<RunId, Buffer>, sent: seq<Event>, sends: seq<Event>,
                    lost: multiset<Event>, loses: multiset<Event>, e: Event, at: int, maxRunEvents: nat, minDuration: real)
    requires Closed(was, now, sent, sends, lost, loses, e, at, maxRunEvents, Interesting(e, minDuration))
    ensures e.terminal && !e.failed && (e.duration.None? || e.duration.value < minDuration) && |Buffered(was, e.run)| < maxRunEvents ==>
      sends == sent && loses == lost + multiset(Buffered(was, e.run) + [e])
  {
  }
}

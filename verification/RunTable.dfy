/** The `runs` table: reducer state stored on a row between batches, loaded back, or rebuilt. */
module RunTable {
  import opened Keys
  import opened LatestWrites
  import opened RunFold

  datatype RunStart = RunStart(minStarted: Option<nat>, first: Option<Key>, fallback: Option<nat>)

  /** `Run.fold_state`. */
  datatype Fold = Fold(fieldAt: WriteKeys, derivedKeys: seq<Key>, start: Option<RunStart>)

  datatype Row = Row(
    status: Status,
    endedAt: Option<nat>,
    startedAt: Option<nat>,
    events: nat,
    errors: nat,
    warnings: nat,
    assetCount: nat,
    assetKeys: set<string>,
    columns: Values,
    derivedFrom: seq<nat>,
    fold: Option<Fold>,
    updatedAt: nat)

  /** The row `persist_events` inserts before the first fold of a run. */
  function Shell(now: nat): Row {
    Row(Unknown, None, None, 0, 0, 0, 0, {}, map[], [], None, now)
  }

  /** `apply_run_state`. */
  function Store(s: Summary, now: nat): Row {
    Row(s.status, s.endedAt, s.startedAt, s.events, s.errors, s.warnings, |s.assets|, s.assets, s.values,
        Ids(s.derived), Some(Fold(s.at, s.derived, Some(RunStart(s.minStarted, s.firstKey, s.firstFallback)))), now)
  }

  function Insert(k: Key, s: seq<Key>): seq<Key> {
    if s == [] || AtMost(k, s[0]) then [k] + s else [s[0]] + Insert(k, s[1..])
  }

  /** `parse_keys` sorts what it reads. */
  function Sorted(s: seq<Key>): seq<Key> {
    if s == [] then [] else Insert(s[0], Sorted(s[1..]))
  }

  /** Rows without a key for a populated column gate it at the run's latest known time. */
  function LegacyGate(row: Row): Key {
    Key(if row.endedAt.Some? then row.endedAt.value
        else if row.startedAt.Some? then row.startedAt.value
        else row.updatedAt, 0)
  }

  function LoadStart(row: Row): RunStart {
    if row.fold.Some? && row.fold.value.start.Some? then row.fold.value.start.value
    else if row.events > 0 then RunStart(row.startedAt, Some(Key(EPOCH, 0)), None)
    else RunStart(None, None, None)
  }

  /** `run_state_from_row`. */
  function Load(row: Row): Summary {
    var fs := if row.fold.Some? then row.fold.value else Fold(map[], [], None);
    var at := map f | f in fs.fieldAt.Keys + row.columns.Keys :: if f in fs.fieldAt then fs.fieldAt[f] else LegacyGate(row);
    var derived := if fs.derivedKeys != [] then Sorted(fs.derivedKeys) else AnchorIds(row.derivedFrom);
    var start := LoadStart(row);
    Summary(row.status, row.endedAt, row.startedAt, row.events, row.errors, row.warnings, row.assetKeys,
            row.columns, at, derived, start.minStarted, start.first, start.fallback)
  }

  lemma {:induction false} SortedIsIdentity(s: seq<Key>)
    requires Ascending(s)
    ensures Sorted(s) == s
  {
    if s != [] {
      SortedIsIdentity(s[1..]);
      assert s == [s[0]] + s[1..];
    }
  }

  /** A row written by the reducer reads back as the state it was written from. */
  lemma RoundTrip(s: Summary, h: set<RunEvent>, now: nat)
    requires Summarises(s, h)
    ensures Load(Store(s, now)) == s
  {
    hide Strongest, IsMax, IsMin, First, Bounded, Summarises;
    RoundTripParts(s, h);
    SortedIsIdentity(s.derived);
    assert Load(Store(s, now)).at == s.at;
    assert Load(Store(s, now)).derived == s.derived;
  }

  lemma RoundTripParts(s: Summary, h: set<RunEvent>)
    requires Summarises(s, h)
    ensures Ascending(s.derived) && s.values.Keys == s.at.Keys
  {
  }

  /** A row with no folded events is the empty state. */
  lemma ShellIsNew(now: nat)
    ensures Load(Shell(now)) == NEW_RUN
  {
    assert Load(Shell(now)).at == map[];
  }

  // ---------------------------------------------------------------- what the events determine

  ghost predicate DistinctKeys(h: set<RunEvent>) {
    forall d, e :: d in h && e in h && d.key == e.key ==> d == e
  }

  /** Only the outcome words that canonical events carry: no two have one precedence. */
  ghost predicate CanonicalOutcomes(h: set<RunEvent>) {
    forall e :: e in h && e.outcome.Some? ==> e.outcome.value in {Success, Failure, Cancelled, Partial, Unknown}
  }

  lemma WritesConsistent(h: set<RunEvent>)
    requires DistinctKeys(h)
    ensures Consistent(WritesOf(h))
  {
    forall u, v | u in WritesOf(h) && v in WritesOf(h) && u.key == v.key && u.field == v.field ensures u == v {
      var d :| d in h && u in AllOffers(d);
      var e :| e in h && v in AllOffers(e);
      OffersOf(d, u);
      OffersOf(e, v);
    }
  }

  lemma OffersOf(e: RunEvent, w: Write)
    requires w in AllOffers(e)
    ensures w.key == e.key && w.field in e.values && w.value == e.values[w.field]
  {
  }

  lemma FirstUnique(a: Option<Key>, f: Option<nat>, b: Option<Key>, g: Option<nat>, h: set<RunEvent>)
    requires First(a, f, h) && First(b, g, h)
    ensures a == b && f == g
  {
    if h != {} {
      assert AtMost(a.value, b.value) && AtMost(b.value, a.value);
      var e :| e in h && e.key == a.value;
    }
  }

  lemma StatusUnique(a: Status, b: Status, h: set<RunEvent>)
    requires CanonicalOutcomes(h) && Strongest(a, SignalsOf(h)) && Strongest(b, SignalsOf(h))
    ensures a == b
  {
    forall x | x in SignalsOf(h) ensures x in {Running, Success, Failure, Cancelled, Partial} {
      var e :| e in h && Signal(e) == x;
    }
  }

  /** Arrival order, and the split into batches, cannot show in the state: the events determine it, but
      for which assets were kept when there are more than the cap. */
  lemma SummaryUnique(s: Summary, t: Summary, h: set<RunEvent>)
    requires Summarises(s, h) && Summarises(t, h)
    requires DistinctKeys(h) && CanonicalOutcomes(h)
    ensures |s.assets| == |t.assets| && s == t.(assets := s.assets)
    ensures |AssetsOf(h)| <= MAX_SUMMARY_ASSETS ==> s == t
  {
    hide DistinctKeys, CanonicalOutcomes, SignalsOf, EndsOf, StartsOf, Sources, WritesOf, AssetsOf;
    assert s.minStarted == t.minStarted && s.endedAt == t.endedAt;
    WritesConsistent(h);
    StatusUnique(s.status, t.status, h);
    FirstUnique(s.firstKey, s.firstFallback, t.firstKey, t.firstFallback, h);
    hide First, Strongest, IsMax, IsMin;
    LatestUnique(s.values, s.at, t.values, t.at, WritesOf(h));
    WindowUnique(s.derived, t.derived, Sources(h), MAX_DERIVED_FROM, KeepEarliest);
    hide Latest, IsWindow;
    if |AssetsOf(h)| <= MAX_SUMMARY_ASSETS {
      SubsetOfSameSize(s.assets, AssetsOf(h));
      SubsetOfSameSize(t.assets, AssetsOf(h));
    }
  }

  /** `started_at` is the replay value: the earliest-observed event contributes its `started_at` or,
      lacking one, its `observed_at`; every other event's `started_at` can only lower it. */
  lemma StartedAtIsReplay(s: Summary, h: set<RunEvent>, first: RunEvent)
    requires Summarises(s, h) && first in h && IsLeast(first.key, KeysOf(h))
    ensures IsMin(s.startedAt, StartsOf(h) + {if first.started.Some? then first.started.value else first.key.at})
  {
    FirstFallback(s, h, first);
    hide Strongest, IsMax, Bounded, Latest, IsWindow, First;
    if first.started.Some? {
      assert first.started.value in StartsOf(h);
    }
  }

  lemma FirstFallback(s: Summary, h: set<RunEvent>, first: RunEvent)
    requires First(s.firstKey, s.firstFallback, h) && first in h && IsLeast(first.key, KeysOf(h))
    ensures s.firstFallback == if first.started.None? then Some(first.key.at) else None
  {
    assert AtMost(s.firstKey.value, first.key) && AtMost(first.key, s.firstKey.value);
  }

  /** The asset summary is a function of the events exactly up to the cap. */
  lemma AssetsDetermined(h: set<RunEvent>)
    ensures (forall a, b :: Bounded(a, AssetsOf(h)) && Bounded(b, AssetsOf(h)) ==> a == b)
       <==> |AssetsOf(h)| <= MAX_SUMMARY_ASSETS
  {
    var all := AssetsOf(h);
    if |all| <= MAX_SUMMARY_ASSETS {
      forall a, b | Bounded(a, all) && Bounded(b, all) ensures a == b {
        SubsetOfSameSize(a, all);
        SubsetOfSameSize(b, all);
      }
    } else {
      var a, x, y := TwoChoices(all);
      assert Bounded(a - {x} + {y}, all);
    }
  }

  lemma TwoChoices(all: set<string>) returns (a: set<string>, x: string, y: string)
    requires |all| > MAX_SUMMARY_ASSETS
    ensures Bounded(a, all) && x in a && y in all && y !in a
  {
    a := all;
    while |a| > MAX_SUMMARY_ASSETS
      invariant a <= all && MAX_SUMMARY_ASSETS <= |a|
      invariant |a| < |all| ==> exists z :: z in all && z !in a
      decreases |a|
    {
      var z :| z in a;
      a := a - {z};
    }
    x :| x in a;
    y :| y in all && y !in a;
  }

  // ---------------------------------------------------------------- the table

  /** One correlated event of a batch. */
  datatype Arrival = Arrival(run: string, event: RunEvent)

  ghost function EventsOf(batch: seq<Arrival>, run: string): set<RunEvent> {
    set a | a in batch && a.run == run :: a.event
  }

  /** The row holds the closed form of `h`, with its bookkeeping. */
  ghost predicate RowOf(row: Row, h: set<RunEvent>) {
    Summarises(Load(row), h) && row == Store(Load(row), row.updatedAt)
  }

  /** Convergence: rows folded from the same events are equal but for their wall-clock column. */
  lemma RowDetermined(r: Row, q: Row, h: set<RunEvent>)
    requires RowOf(r, h) && RowOf(q, h)
    requires DistinctKeys(h) && CanonicalOutcomes(h) && |AssetsOf(h)| <= MAX_SUMMARY_ASSETS
    ensures r == q.(updatedAt := r.updatedAt)
  {
    hide Summarises, DistinctKeys, CanonicalOutcomes;
    SummaryUnique(Load(r), Load(q), h);
  }

  lemma StoredRow(s: Summary, h: set<RunEvent>, now: nat)
    requires Summarises(s, h)
    ensures RowOf(Store(s, now), h)
  {
    hide Summarises, Load;
    RoundTrip(s, h, now);
  }

  lemma LoadedSummary(row: Row, known: bool, h: set<RunEvent>, now: nat)
    requires if known then RowOf(row, h) else row == Shell(now) && h == {}
    ensures Summarises(Load(row), h)
  {
    hide Summarises, Load;
    ShellIsNew(now);
    NewRunSummarises();
  }

  class Runs {
    var rows: map<string, Row>
    /** The events folded into each row so far. */
    ghost var folded: map<string, set<RunEvent>>

    ghost predicate Valid()
      reads this
    {
      && rows.Keys == folded.Keys
      && (forall r :: r in rows ==> RowOf(rows[r], folded[r]))
    }

    constructor ()
      ensures Valid() && rows == map[] && folded == map[]
    {
      rows, folded := map[], map[];
    }

    /** One run's part of `update_run_projections`: load, fold in arrival order, store. */
    method FoldRun(run: string, events: seq<RunEvent>, now: nat)
      requires Valid() && FreshEvents(events, KeysOf(Into(folded, run)))
      modifies this
      ensures Valid()
      ensures folded == old(folded)[run := old(Into(folded, run)) + SetOf(events)]
      ensures rows.Keys == old(rows).Keys + {run}
      ensures forall r :: r in old(rows) && r != run ==> rows[r] == old(rows)[r]
    {
      hide Summarises, Load, Store, KeysOf, RowOf;
      ghost var h := Into(folded, run);
      var row := if run in rows then rows[run] else Shell(now);
      LoadedSummary(row, run in rows, h, now);
      var state := new RunState(Load(row));
      FoldInto(state, events, h);
      StoredRow(state.Snapshot(), h + SetOf(events), now);
      rows := rows[run := Store(state.Snapshot(), now)];
      folded := folded[run := h + SetOf(events)];
    }
  
    /** One iteration over `by_run`. */
    method FoldNext(r: string, events: seq<RunEvent>, now: nat, ghost batch: seq<Arrival>,
                    ghost was: map<string, set<RunEvent>>, ghost done: set<string>)
      requires Valid() && Grown(folded, was, batch, done) && r !in done
      requires FreshBatch(batch, was) && events == Group(batch, r)
      modifies this
      ensures Valid() && Grown(folded, was, batch, done + {r})
    {
      hide RowOf, FreshEvents, FreshBatch, Group, EventsOf, SetOf, Into, Grown, Valid;
      GroupIsFresh(batch, was, r, events);
      GrownStep(folded, was, batch, done, r);
      FoldRun(r, events, now);
    }

    /** `update_run_projections`: group a batch by run, then fold each run's events in batch order. */
    method UpdateRunProjections(batch: seq<Arrival>, now: nat)
      requires Valid() && FreshBatch(batch, folded)
      modifies this
      ensures Valid()
      ensures forall r :: Into(folded, r) == old(Into(folded, r)) + EventsOf(batch, r)
    {
      hide RowOf, FreshEvents, FreshBatch, Group, EventsOf, SetOf, Into, Grown, Valid;
      var byRun := GroupByRun(batch);
      var todo := byRun.Keys;
      ghost var done: set<string> := {};
      GrownNothing(folded, batch);
      while todo != {}
        invariant Valid() && todo <= byRun.Keys
        invariant done !! todo && done + todo == byRun.Keys
        invariant Grown(folded, old(folded), batch, done)
        decreases |todo|
      {
        var r :| r in todo;
        FoldNext(r, byRun[r], now, batch, old(folded), done);
        done := done + {r};
        todo := todo - {r};
      }
      GrownAll(folded, old(folded), batch, done);
    }

    /** The run part of `rebuild_projections`: clear, fold the whole history into in-memory states,
        write the rows. */
    method Rebuild(history: seq<Arrival>, now: nat)
      requires FreshBatch(history, map[])
      modifies this
      ensures Valid()
      ensures forall r :: Into(folded, r) == EventsOf(history, r)
    {
      hide RowOf, EventsOf, Summarises, FreshBatch, Replayed, Valid;
      var states: map<string, RunState> := map[];
      var i := 0;
      NoHistory(history);
      while i < |history|
        invariant 0 <= i <= |history|
        invariant forall r :: r in states ==> fresh(states[r])
        invariant Replayed(states, history[..i])
      {
        states := ReplayStep(states, history, i);
        i := i + 1;
      }
      assert history[..i] == history;
      WriteRows(states, history, now);
    }

    method WriteRows(states: map<string, RunState>, ghost history: seq<Arrival>, now: nat)
      requires Replayed(states, history)
      modifies this
      ensures Valid()
      ensures forall r :: Into(folded, r) == EventsOf(history, r)
    {
      hide RowOf, EventsOf, Summarises;
      folded := map r | r in states :: EventsOf(history, r);
      rows := map r | r in states :: Store(states[r].Snapshot(), now);
      forall r | r in rows ensures RowOf(rows[r], folded[r]) {
        StoredRow(states[r].Snapshot(), EventsOf(history, r), now);
      }
    }
  }

  /** In-memory states of a rebuild, each the closed form of its run's part of the history read so far. */
  ghost predicate Replayed(states: map<string, RunState>, history: seq<Arrival>)
    reads states.Values
  {
    && (forall q, r :: q in states && r in states && q != r ==> states[q] != states[r])
    && (forall r :: r in states ==> Summarises(states[r].Snapshot(), EventsOf(history, r)))
    && (forall r :: r !in states ==> EventsOf(history, r) == {})
  }

  /** `run_states.setdefault(...)`, then `apply_run_event`. */
  method ReplayStep(states: map<string, RunState>, history: seq<Arrival>, i: nat) returns (out: map<string, RunState>)
    requires FreshBatch(history, map[]) && i < |history| && Replayed(states, history[..i])
    modifies states.Values
    ensures Replayed(out, history[..i + 1])
    ensures forall r :: r in out ==> fresh(out[r]) || (r in states && out[r] == states[r])
  {
    hide EventsOf, Summarises, FreshBatch, KeysOf;
    var run, event := history[i].run, history[i].event;
    out := states;
    if run !in out {
      NewRunSummarises();
      var state := new RunState(NEW_RUN);
      out := out[run := state];
    }
    HistoryStep(history, i);
    out[run].Apply(event, EventsOf(history[..i], run));
  }

  /** The events folded into a run so far. */
  ghost function Into(folded: map<string, set<RunEvent>>, run: string): set<RunEvent> {
    if run in folded then folded[run] else {}
  }

  ghost function SetOf(events: seq<RunEvent>): set<RunEvent> { set e | e in events }

  /** A batch holds events not folded before, each once. */
  ghost predicate FreshBatch(batch: seq<Arrival>, folded: map<string, set<RunEvent>>) {
    && (forall a :: a in batch && a.run in folded ==> a.event.key !in KeysOf(folded[a.run]))
    && (forall i, j :: 0 <= i < j < |batch| ==> batch[i].event.key != batch[j].event.key)
  }

  /** One run's events of a batch, in batch order. */
  function Group(batch: seq<Arrival>, run: string): seq<RunEvent> {
    if batch == [] then []
    else
      var n := |batch| - 1;
      Group(batch[..n], run) + if batch[n].run == run then [batch[n].event] else []
  }

  lemma {:induction false} GroupOf(batch: seq<Arrival>, run: string)
    ensures SetOf(Group(batch, run)) == EventsOf(batch, run)
  {
    if batch != [] {
      var n := |batch| - 1;
      GroupOf(batch[..n], run);
      assert batch == batch[..n] + [batch[n]];
      var tail := if batch[n].run == run then [batch[n].event] else [];
      assert SetOf(Group(batch, run)) == SetOf(Group(batch[..n], run)) + SetOf(tail);
      assert EventsOf(batch, run) == EventsOf(batch[..n], run) + SetOf(tail);
    }
  }

  lemma {:induction false} GroupDistinct(batch: seq<Arrival>, run: string)
    requires forall i, j :: 0 <= i < j < |batch| ==> batch[i].event.key != batch[j].event.key
    ensures forall i, j :: 0 <= i < j < |Group(batch, run)| ==> Group(batch, run)[i].key != Group(batch, run)[j].key
  {
    if batch != [] {
      var n := |batch| - 1;
      GroupDistinct(batch[..n], run);
      GroupOf(batch[..n], run);
      forall e | e in Group(batch[..n], run) ensures e.key != batch[n].event.key {
        assert e in SetOf(Group(batch[..n], run));
        var a :| a in batch[..n] && a.event == e;
        var i :| 0 <= i < n && batch[i] == a;
      }
    }
  }

  lemma GroupIsFresh(batch: seq<Arrival>, folded: map<string, set<RunEvent>>, run: string, events: seq<RunEvent>)
    requires FreshBatch(batch, folded) && events == Group(batch, run)
    ensures FreshEvents(events, KeysOf(Into(folded, run)))
    ensures SetOf(events) == EventsOf(batch, run)
  {
    GroupOf(batch, run);
    GroupDistinct(batch, run);
    hide KeysOf;
    forall e | e in events ensures e.key !in KeysOf(if run in folded then folded[run] else {}) {
      assert e in EventsOf(batch, run);
      var a :| a in batch && a.run == run && a.event == e;
      if run !in folded { NoKeys(); }
    }
  }

  lemma NoKeys()
    ensures KeysOf({}) == {}
  {
  }

  /** The runs of `done` have folded their part of the batch, the others are as they were. */
  ghost predicate Grown(folded: map<string, set<RunEvent>>, was: map<string, set<RunEvent>>,
                        batch: seq<Arrival>, done: set<string>) {
    forall r :: Into(folded, r) == if r in done then Into(was, r) + EventsOf(batch, r) else Into(was, r)
  }

  lemma GrownNothing(folded: map<string, set<RunEvent>>, batch: seq<Arrival>)
    ensures Grown(folded, folded, batch, {})
  {
  }

  lemma GrownStep(folded: map<string, set<RunEvent>>, was: map<string, set<RunEvent>>, batch: seq<Arrival>,
                  done: set<string>, run: string)
    requires Grown(folded, was, batch, done) && run !in done
    ensures Into(folded, run) == Into(was, run)
    ensures Grown(folded[run := Into(folded, run) + EventsOf(batch, run)], was, batch, done + {run})
  {
    var next := folded[run := Into(folded, run) + EventsOf(batch, run)];
    forall r ensures Into(next, r) == if r in done + {run} then Into(was, r) + EventsOf(batch, r) else Into(was, r) {
      if r == run {} else {}
    }
  }

  lemma GrownAll(folded: map<string, set<RunEvent>>, was: map<string, set<RunEvent>>, batch: seq<Arrival>,
                 runs: set<string>)
    requires Grown(folded, was, batch, runs) && forall a :: a in batch ==> a.run in runs
    ensures forall r :: Into(folded, r) == Into(was, r) + EventsOf(batch, r)
  {
    forall r | r !in runs ensures EventsOf(batch, r) == {} {
    }
  }

  lemma NoHistory(history: seq<Arrival>)
    ensures Replayed(map[], history[..0])
  {
  }

  /** One more event of a history belongs to its own run only, and is new there. */
  lemma HistoryStep(history: seq<Arrival>, i: nat)
    requires FreshBatch(history, map[]) && i < |history|
    ensures forall r :: EventsOf(history[..i + 1], r) ==
              (if r == history[i].run then EventsOf(history[..i], r) + {history[i].event} else EventsOf(history[..i], r))
    ensures history[i].event.key !in KeysOf(EventsOf(history[..i], history[i].run))
  {
    assert history[..i + 1] == history[..i] + [history[i]];
    forall e | e in EventsOf(history[..i], history[i].run) ensures e.key != history[i].event.key {
      var a :| a in history[..i] && a.event == e;
      var j :| 0 <= j < i && history[j] == a;
    }
  }

  lemma GroupStep(batch: seq<Arrival>, i: nat, run: string)
    requires i < |batch|
    ensures Group(batch[..i + 1], run) ==
      Group(batch[..i], run) + if batch[i].run == run then [batch[i].event] else []
  {
    assert batch[..i + 1][..i] == batch[..i];
  }

  ghost predicate Grouped(byRun: map<string, seq<RunEvent>>, batch: seq<Arrival>) {
    && (forall r :: r in byRun ==> byRun[r] == Group(batch, r))
    && (forall r :: r !in byRun ==> Group(batch, r) == [])
    && (forall a :: a in batch ==> a.run in byRun)
  }

  lemma GroupedStep(byRun: map<string, seq<RunEvent>>, batch: seq<Arrival>, i: nat)
    requires i < |batch| && Grouped(byRun, batch[..i])
    ensures var a := batch[i];
      Grouped(byRun[a.run := (if a.run in byRun then byRun[a.run] else []) + [a.event]], batch[..i + 1])
  {
    forall r { GroupStep(batch, i, r); }
    hide Group;
    assert batch[..i + 1] == batch[..i] + [batch[i]];
  }

  /** The `by_run` dictionary. */
  method GroupByRun(batch: seq<Arrival>) returns (byRun: map<string, seq<RunEvent>>)
    ensures Grouped(byRun, batch)
  {
    byRun := map[];
    var i := 0;
    assert Grouped(byRun, batch[..0]);
    hide Grouped;
    while i < |batch|
      invariant 0 <= i <= |batch|
      invariant Grouped(byRun, batch[..i])
    {
      var a := batch[i];
      GroupedStep(byRun, batch, i);
      byRun := byRun[a.run := (if a.run in byRun then byRun[a.run] else []) + [a.event]];
      i := i + 1;
    }
    assert batch[..i] == batch;
  }

  /** Two tables that folded the same events agree on every row, however the events were ordered,
      batched or rebuilt. */
  lemma TablesConverge(a: Runs, b: Runs, run: string)
    requires a.Valid() && b.Valid() && run in a.rows && run in b.rows
    requires Into(a.folded, run) == Into(b.folded, run)
    requires var h := Into(a.folded, run);
      DistinctKeys(h) && CanonicalOutcomes(h) && |AssetsOf(h)| <= MAX_SUMMARY_ASSETS
    ensures a.rows[run] == b.rows[run].(updatedAt := a.rows[run].updatedAt)
  {
    hide RowOf, DistinctKeys, CanonicalOutcomes;
    RowDetermined(a.rows[run], b.rows[run], Into(a.folded, run));
  }

  ghost predicate FreshEvents(events: seq<RunEvent>, folded: set<Key>) {
    && (forall e :: e in events ==> e.key !in folded)
    && (forall i, j :: 0 <= i < j < |events| ==> events[i].key != events[j].key)
  }

  /** Folding events one by one, in whatever order they come. */
  method FoldInto(state: RunState, events: seq<RunEvent>, ghost h: set<RunEvent>)
    requires Summarises(state.Snapshot(), h) && FreshEvents(events, KeysOf(h))
    modifies state
    ensures Summarises(state.Snapshot(), h + SetOf(events))
  {
    hide Summarises;
    var i := 0;
    assert h + SetOf(events[..0]) == h;
    while i < |events|
      invariant 0 <= i <= |events|
      invariant Summarises(state.Snapshot(), h + SetOf(events[..i]))
    {
      NextIsFresh(events, i, h);
      state.Apply(events[i], h + SetOf(events[..i]));
      i := i + 1;
    }
    assert events[..i] == events;
  }

  lemma NextIsFresh(events: seq<RunEvent>, i: nat, h: set<RunEvent>)
    requires FreshEvents(events, KeysOf(h)) && i < |events|
    ensures events[i].key !in KeysOf(h + SetOf(events[..i]))
    ensures h + SetOf(events[..i]) + {events[i]} == h + SetOf(events[..i + 1])
  {
    assert events[..i + 1] == events[..i] + [events[i]];
  }
}

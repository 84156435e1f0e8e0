/** Asset state: `apply_asset_event`, its row, and freshness as of a position. */
module AssetFold {
  import opened AsOfWindow
  import opened Keys
  import opened LatestWrites

  /** Retained successful materializations per asset. */
  const MAX_MATERIALIZE_TIMES := 64
  datatype Outcome = NoOutcome | Success | Failure | Other

  /** What the reducer reads of an event: `materializes` says that its verb is a materialization verb. */
  datatype AssetEvent = AssetEvent(key: Key, materializes: bool, outcome: Outcome, sla: Value)

  datatype Status = Unknown | Healthy | Failing | Recovering

  datatype Asset = Asset(
    status: Status,
    lastMaterialized: Option<nat>,
    lastEvent: Option<nat>,
    values: Values,
    at: WriteKeys,
    derived: seq<Key>,
    times: seq<Key>,
    lastFailure: Option<Key>)

  const NEW_ASSET := Asset(Unknown, None, None, map[], map[], [], [], None)

  ghost function Times(h: set<AssetEvent>): set<nat> { set e | e in h :: e.key.at }
  ghost function Sources(h: set<AssetEvent>): set<Key> { set e | e in h && e.key.eid != 0 :: e.key }
  ghost function Successes(h: set<AssetEvent>): set<Key> { set e | e in h && Materialized(e) :: e.key }
  ghost function Failures(h: set<AssetEvent>): set<Key> { set e | e in h && e.materializes && e.outcome.Failure? :: e.key }
  ghost function Instants(s: set<Key>): set<nat> { set k | k in s :: k.at }
  ghost function Agreements(h: set<AssetEvent>): set<Write> { set e | e in h && !Empty(e.sla) :: Write(e.key, FreshnessSla, e.sla) }

  predicate Materialized(e: AssetEvent) {
    e.materializes && e.outcome.Success?
  }

  ghost predicate IsLast(k: Option<Key>, s: set<Key>) {
    if s == {} then k == None else k.Some? && IsGreatest(k.value, s)
  }

  /** `_asset_status`. */
  function StatusOf(times: seq<Key>, lastFailure: Option<Key>): Status {
    var lastSuccess := if times == [] then None else Some(times[|times| - 1]);
    if lastFailure.None? then (if lastSuccess.Some? then Healthy else Unknown)
    else if lastSuccess.None? || AtMost(lastSuccess.value, lastFailure.value) then Failing
    else Recovering
  }

  /** The state is the closed form of the events `h`. */
  ghost predicate Describes(s: Asset, h: set<AssetEvent>) {
    && IsMax(s.lastEvent, Times(h))
    && IsMax(s.lastMaterialized, Instants(Successes(h)))
    && IsWindow(s.times, Successes(h), MAX_MATERIALIZE_TIMES, KeepNewest)
    && IsLast(s.lastFailure, Failures(h))
    && Latest(s.values, s.at, Agreements(h))
    && IsWindow(s.derived, Sources(h), MAX_DERIVED_FROM, KeepEarliest)
    && s.status == StatusOf(s.times, s.lastFailure)
  }

  lemma NewAsset()
    ensures Describes(NEW_ASSET, {})
  {
    assert Times({}) == {} && Sources({}) == {} == Successes({}) == Failures({}) && Instants({}) == {} && Agreements({}) == {};
  }

  // ---------------------------------------------------------------- what the state means

  /** Status is decided by the newest success and the newest failure of the whole history. */
  lemma StatusIsLatestOutcome(s: Asset, h: set<AssetEvent>)
    requires Describes(s, h)
    ensures s.status ==
      if Failures(h) == {} then (if Successes(h) == {} then Unknown else Healthy)
      else if Successes(h) == {} || AtMost(Greatest(Successes(h)), Greatest(Failures(h))) then Failing
      else Recovering
  {
    WindowEndsWithGreatest(s.times, Successes(h), MAX_MATERIALIZE_TIMES);
    hide IsWindow, Successes, Failures, IsMax, Latest;
    if Successes(h) != {} { OneGreatest(s.times[|s.times| - 1], Greatest(Successes(h)), Successes(h)); }
    if Failures(h) != {} { OneGreatest(s.lastFailure.value, Greatest(Failures(h)), Failures(h)); }
    hide IsGreatest;
  }

  /** `materialized_before`. */
  method MaterializedBefore(times: seq<Key>, k: Key) returns (r: Option<nat>)
    requires Ascending(times)
    ensures r == AsOf(times, k)
  {
    var i := 0;
    while i < |times| && Less(times[i], k)
      invariant 0 <= i <= |times|
      invariant forall j :: 0 <= j < i ==> Less(times[j], k)
    {
      i := i + 1;
    }
    BisectUnique(times, k, i);
    r := if i > 0 then Some(times[i - 1].at) else None;
  }

  /** A bounded history answers as of `k` exactly like the whole one unless 64 later successes have
      pushed everything before `k` out of it. */
  lemma FreshnessAsOf(s: Asset, h: set<AssetEvent>, k: Key)
    requires Describes(s, h)
    ensures RightAnswer(AsOf(s.times, k), Successes(h), k)
      <==> Before(Successes(h), k) == {} || |AtOrAfter(Successes(h), k)| < MAX_MATERIALIZE_TIMES
  {
    hide Successes, Failures;
    WindowAsOf(s.times, Successes(h), MAX_MATERIALIZE_TIMES, k);
  }

  // ---------------------------------------------------------------- the reducer

  lemma SetsWith(h: set<AssetEvent>, e: AssetEvent)
    ensures Times(h + {e}) == Times(h) + {e.key.at}
    ensures Sources(h + {e}) == Sources(h) + if e.key.eid != 0 then {e.key} else {}
    ensures Agreements(h + {e}) == Agreements(h) + if Empty(e.sla) then {} else {Write(e.key, FreshnessSla, e.sla)}
  {
    assert forall x :: x in Times(h + {e}) <==> x in Times(h) || x == e.key.at;
  }

  lemma OutcomesWith(h: set<AssetEvent>, e: AssetEvent)
    ensures Successes(h + {e}) == Successes(h) + if Materialized(e) then {e.key} else {}
    ensures Failures(h + {e}) == Failures(h) + if e.materializes && e.outcome.Failure? then {e.key} else {}
    ensures Instants(Successes(h + {e})) == Instants(Successes(h)) + if Materialized(e) then {e.key.at} else {}
  {
    assert forall x :: x in Instants(Successes(h + {e})) <==> x in Instants(Successes(h)) || (Materialized(e) && x == e.key.at);
  }

  class AssetState {
    var status: Status
    var lastMaterialized: Option<nat>
    var lastEvent: Option<nat>
    var values: Values
    var at: WriteKeys
    var derived: seq<Key>
    var times: seq<Key>
    var lastFailure: Option<Key>

    constructor (s: Asset)
      ensures Snapshot() == s
    {
      status, lastMaterialized, lastEvent := s.status, s.lastMaterialized, s.lastEvent;
      values, at, derived, times, lastFailure := s.values, s.at, s.derived, s.times, s.lastFailure;
    }

    function Snapshot(): Asset
      reads this
    {
      Asset(status, lastMaterialized, lastEvent, values, at, derived, times, lastFailure)
    }

    /** `_record` and `last_event_at`. */
    method See(key: Key, ghost s: set<Key>, ghost t: set<nat>)
      requires IsWindow(derived, s, MAX_DERIVED_FROM, KeepEarliest) && IsMax(lastEvent, t)
      modifies `derived, `lastEvent
      ensures IsWindow(derived, s + if key.eid != 0 then {key} else {}, MAX_DERIVED_FROM, KeepEarliest)
      ensures IsMax(lastEvent, t + {key.at})
    {
      if key.eid != 0 {
        derived := InsertSorted(derived, key, MAX_DERIVED_FROM, KeepEarliest);
      } else {
        assert s + {} == s;
      }
      if lastEvent.None? || key.at > lastEvent.value {
        lastEvent := Some(key.at);
      }
    }

    method Succeed(key: Key, ghost s: set<Key>, ghost t: set<nat>)
      requires IsWindow(times, s, MAX_MATERIALIZE_TIMES, KeepNewest) && IsMax(lastMaterialized, t)
      modifies `times, `lastMaterialized
      ensures IsWindow(times, s + {key}, MAX_MATERIALIZE_TIMES, KeepNewest) && IsMax(lastMaterialized, t + {key.at})
    {
      times := InsertSorted(times, key, MAX_MATERIALIZE_TIMES, KeepNewest);
      hide IsWindow;
      if lastMaterialized.None? || key.at > lastMaterialized.value {
        lastMaterialized := Some(key.at);
      }
    }

    method Fail(key: Key, ghost s: set<Key>)
      requires IsLast(lastFailure, s)
      modifies `lastFailure
      ensures IsLast(lastFailure, s + {key})
    {
      if lastFailure.None? || Less(lastFailure.value, key) {
        lastFailure := Some(key);
      }
    }

    /** The outcome of a materialization event. */
    method Materialize(e: AssetEvent, ghost h: set<AssetEvent>)
      requires IsWindow(times, Successes(h), MAX_MATERIALIZE_TIMES, KeepNewest)
      requires IsMax(lastMaterialized, Instants(Successes(h))) && IsLast(lastFailure, Failures(h))
      requires status == StatusOf(times, lastFailure)
      modifies `times, `lastMaterialized, `lastFailure, `status
      ensures IsWindow(times, Successes(h + {e}), MAX_MATERIALIZE_TIMES, KeepNewest)
      ensures IsMax(lastMaterialized, Instants(Successes(h + {e}))) && IsLast(lastFailure, Failures(h + {e}))
      ensures status == StatusOf(times, lastFailure)
    {
      OutcomesWith(h, e);
      hide Successes, Failures, Instants, StatusOf, IsWindow, IsMax, IsLast;
      assert Successes(h) + {} == Successes(h) && Failures(h) + {} == Failures(h);
      assert Instants(Successes(h)) + {} == Instants(Successes(h));
      if e.materializes {
        if e.outcome.Success? {
          Succeed(e.key, Successes(h), Instants(Successes(h)));
        } else if e.outcome.Failure? {
          Fail(e.key, Failures(h));
        }
        status := StatusOf(times, lastFailure);
      }
    }

    /** `apply_asset_event`.  Folding an event again changes nothing that the closed form does not say. */
    method Apply(e: AssetEvent, ghost h: set<AssetEvent>)
      requires Describes(Snapshot(), h)
      modifies this
      ensures Describes(Snapshot(), h + {e})
    {
      hide IsWindow, Latest, IsMax, IsLast, Successes, Failures, Instants, Times, Sources, Agreements, StatusOf;
      SetsWith(h, e);
      See(e.key, Sources(h), Times(h));
      Materialize(e, h);
      if !Empty(e.sla) {
        values, at := SetLatest(values, at, FreshnessSla, e.sla, e.key);
      } else {
        assert Agreements(h) + {} == Agreements(h);
      }
    }
  }

  // ---------------------------------------------------------------- rows

  datatype Fold = Fold(times: seq<Key>, lastFailure: Option<Key>, fieldAt: WriteKeys, derivedKeys: seq<Key>)

  datatype Row = Row(status: Status, lastMaterialized: Option<nat>, lastEvent: Option<nat>, columns: Values, refs: seq<nat>, fold: Fold)

  /** The write-back of `_flush_assets`. */
  function Store(s: Asset): Row {
    Row(s.status, s.lastMaterialized, s.lastEvent, s.values, Ids(s.derived), Fold(s.times, s.lastFailure, s.at, s.derived))
  }

  /** The row the upsert inserts before the first fold. */
  const SHELL := Row(Unknown, None, None, map[], [], Fold([], None, map[], []))

  /** `asset_state_from_row`, with its conservative defaults for rows without bookkeeping. */
  function Load(row: Row): Asset {
    var times := if row.fold.times == [] && row.lastMaterialized.Some? then [Key(row.lastMaterialized.value, 0)] else row.fold.times;
    var anchor := if row.status == Recovering then EPOCH
                  else if row.lastEvent.Some? then row.lastEvent.value
                  else if row.lastMaterialized.Some? then row.lastMaterialized.value else EPOCH;
    var lastFailure := if row.fold.lastFailure.None? && row.status in {Failing, Recovering} then Some(Key(anchor, 0))
                       else row.fold.lastFailure;
    var gate := Key(if row.lastEvent.Some? then row.lastEvent.value else EPOCH, 0);
    var at := map f | f in row.fold.fieldAt.Keys + row.columns.Keys :: if f in row.fold.fieldAt then row.fold.fieldAt[f] else gate;
    var derived := if row.fold.derivedKeys != [] then row.fold.derivedKeys else AnchorIds(row.refs);
    Asset(row.status, row.lastMaterialized, row.lastEvent, row.columns, at, derived, times, lastFailure)
  }

  /** A row written by the reducer reads back as the state it was written from. */
  lemma RoundTrip(s: Asset, h: set<AssetEvent>)
    requires Describes(s, h)
    ensures Load(Store(s)) == s
  {
    WindowEndsWithGreatest(s.times, Successes(h), MAX_MATERIALIZE_TIMES);
    assert s.values.Keys == s.at.Keys;
    MaterializedMeansTimes(s, h);
    hide IsWindow, Latest, IsLast, IsMax, Successes, Failures, Instants;
    assert Load(Store(s)).at == s.at;
    assert Load(Store(s)).derived == s.derived;
  }

  lemma MaterializedMeansTimes(s: Asset, h: set<AssetEvent>)
    requires Describes(s, h)
    ensures s.times == [] <==> s.lastMaterialized.None?
  {
    WindowEndsWithGreatest(s.times, Successes(h), MAX_MATERIALIZE_TIMES);
    hide IsWindow, Latest, IsLast, Failures, Successes;
    if Successes(h) != {} {
      var k :| k in Successes(h);
      assert k.at in Instants(Successes(h));
    }
  }

  lemma ShellIsNew()
    ensures Load(SHELL) == NEW_ASSET
  {
    assert Load(SHELL).at == map[];
    assert Load(SHELL).derived == [];
  }

  /** The row is the closed form of `h`, with its bookkeeping. */
  ghost predicate RowOf(row: Row, h: set<AssetEvent>) {
    Describes(Load(row), h) && row == Store(Load(row))
  }

  ghost function SetOf(events: seq<AssetEvent>): set<AssetEvent> { set e | e in events }

  /** One asset's part of `_flush_assets`, or of a rebuild: load, fold in any order, store. */
  method FoldRow(existing: Option<Row>, events: seq<AssetEvent>, ghost h: set<AssetEvent>) returns (row: Row)
    requires if existing.Some? then RowOf(existing.value, h) else h == {}
    ensures RowOf(row, h + SetOf(events))
  {
    ShellIsNew();
    NewAsset();
    hide Describes, Load, Store;
    var state := new AssetState(Load(if existing.Some? then existing.value else SHELL));
    var i := 0;
    assert h + SetOf(events[..0]) == h;
    while i < |events|
      invariant 0 <= i <= |events|
      invariant Describes(state.Snapshot(), h + SetOf(events[..i]))
    {
      state.Apply(events[i], h + SetOf(events[..i]));
      assert events[..i + 1] == events[..i] + [events[i]];
      assert h + SetOf(events[..i]) + {events[i]} == h + SetOf(events[..i + 1]);
      i := i + 1;
    }
    assert events[..i] == events;
    RoundTrip(state.Snapshot(), h + SetOf(events));
    row := Store(state.Snapshot());
  }

  /** The persisted row depends only on the set of events: arrival order, batching, repetition and
      rebuilding leave no trace. */
  lemma RowUnique(r: Row, q: Row, h: set<AssetEvent>)
    requires RowOf(r, h) && RowOf(q, h)
    requires forall d, e :: d in h && e in h && d.key == e.key ==> d == e
    ensures r == q
  {
    hide Load, Store;
    StateUnique(Load(r), Load(q), h);
  }

  lemma StateUnique(s: Asset, t: Asset, h: set<AssetEvent>)
    requires Describes(s, h) && Describes(t, h)
    requires forall d, e :: d in h && e in h && d.key == e.key ==> d == e
    ensures s == t
  {
    assert Consistent(Agreements(h));
    hide Agreements, Successes, Failures, Instants, Times, Sources;
    if Failures(h) != {} { OneGreatest(s.lastFailure.value, t.lastFailure.value, Failures(h)); }
    assert s.lastEvent == t.lastEvent && s.lastMaterialized == t.lastMaterialized;
    hide IsMax, IsLast;
    LatestUnique(s.values, s.at, t.values, t.at, Agreements(h));
    WindowUnique(s.derived, t.derived, Sources(h), MAX_DERIVED_FROM, KeepEarliest);
    WindowUnique(s.times, t.times, Successes(h), MAX_MATERIALIZE_TIMES, KeepNewest);
  }

  /** A materialization with the given outcome. */
  predicate Reports(e: AssetEvent, o: Outcome) {
    e.materializes && e.outcome == o
  }

  ghost predicate SomeReport(h: set<AssetEvent>, o: Outcome) {
    exists e :: e in h && Reports(e, o)
  }

  /** Some failure is not followed by a success. */
  ghost predicate StandingFailure(h: set<AssetEvent>) {
    exists e :: e in h && Reports(e, Failure) && forall d :: d in h && Reports(d, Success) ==> !Less(e.key, d.key)
  }

  /** Status in terms of events: failing when some failure is not followed by a success, recovering when there were
      failures but a success follows each of them, healthy when there were only successes, unknown when there
      was neither. */
  lemma StatusMeans(s: Asset, h: set<AssetEvent>)
    requires Describes(s, h)
    ensures s.status == Failing <==> StandingFailure(h)
    ensures s.status == Recovering <==> SomeReport(h, Failure) && !StandingFailure(h)
    ensures s.status == Healthy <==> SomeReport(h, Success) && !SomeReport(h, Failure)
    ensures s.status == Unknown <==> !SomeReport(h, Success) && !SomeReport(h, Failure)
  {
    StatusIsLatestOutcome(s, h);
    ByGreatest(Successes(h), Failures(h));
    StandingIs(h);
    SomeReportIs(h);
    hide Describes, Successes, Failures, Reports, Greatest, StandingFailure, SomeReport;
  }

  lemma SomeReportIs(h: set<AssetEvent>)
    ensures SomeReport(h, Success) <==> Successes(h) != {}
    ensures SomeReport(h, Failure) <==> Failures(h) != {}
  {
    OutcomesMean(h);
    hide Successes, Failures, Reports;
    if k :| k in Successes(h) { assert SomeReport(h, Success); }
    if k :| k in Failures(h) { assert SomeReport(h, Failure); }
  }

  lemma StandingIs(h: set<AssetEvent>)
    ensures StandingFailure(h) <==> exists f :: f in Failures(h) && forall k :: k in Successes(h) ==> !Less(f, k)
  {
    OutcomesMean(h);
    hide Successes, Failures, Reports;
    if f :| f in Failures(h) && forall k :: k in Successes(h) ==> !Less(f, k) {
      var e :| e in h && Reports(e, Failure) && e.key == f;
    }
    if StandingFailure(h) {
      var e :| e in h && Reports(e, Failure) && forall d :: d in h && Reports(d, Success) ==> !Less(e.key, d.key);
      forall k | k in Successes(h) ensures !Less(e.key, k) {
        var d :| d in h && Reports(d, Success) && d.key == k;
      }
    }
  }

  /** Comparing the newest of two sets of keys. */
  lemma ByGreatest(S: set<Key>, F: set<Key>)
    ensures F != {} && (S == {} || AtMost(Greatest(S), Greatest(F))) <==> exists f :: f in F && forall k :: k in S ==> !Less(f, k)
    ensures F != {} && S != {} && !AtMost(Greatest(S), Greatest(F)) <==> F != {} && forall f :: f in F ==> exists k :: k in S && Less(f, k)
  {
    if F != {} {
      var f := Greatest(F);
      assert IsGreatest(f, F);
      if S != {} {
        assert IsGreatest(Greatest(S), S);
      }
      assert (S == {} || AtMost(Greatest(S), f)) ==> forall k :: k in S ==> !Less(f, k);
    }
  }

  lemma OutcomesMean(h: set<AssetEvent>)
    ensures forall k :: k in Successes(h) <==> exists e :: e in h && Reports(e, Success) && e.key == k
    ensures forall k :: k in Failures(h) <==> exists e :: e in h && Reports(e, Failure) && e.key == k
    ensures forall e :: e in h && Reports(e, Success) ==> e.key in Successes(h)
    ensures forall e :: e in h && Reports(e, Failure) ==> e.key in Failures(h)
  {
  }
}

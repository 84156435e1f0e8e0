/** `apply_run_event`: the reducer of the `runs` projection, against a closed form over the set of
    events folded. */
module RunFold {
  import opened Keys
  import opened LatestWrites

  const MAX_SUMMARY_ASSETS := 1000

  /** Every status word of `_STATUS_PRECEDENCE`. */
  datatype Status =
    | Unknown | Queued | Running | Degraded | Partial | Cancelled | Success | Succeeded | Failure | Failed

  function Precedence(s: Status): nat {
    match s
    case Unknown | Queued => 0
    case Running => 1
    case Degraded | Partial => 2
    case Cancelled => 3
    case Success | Succeeded => 4
    case Failure | Failed => 5
  }

  datatype Severity = Trace | Debug | Info | Warn | Error | Critical

  /** What `apply_run_event` reads of a canonical event of one run. */
  datatype RunEvent = RunEvent(
    key: Key,
    started: Option<nat>,
    ended: Option<nat>,
    severity: Severity,
    hasError: bool,
    asset: string,
    terminal: bool,
    outcome: Option<Status>,
    values: Values)

  predicate IsError(e: RunEvent) {
    e.hasError || e.severity.Error? || e.severity.Critical?
  }

  predicate IsWarning(e: RunEvent) {
    !IsError(e) && e.severity.Warn?
  }

  /** A terminal run event without a final outcome says that the run started. */
  predicate Ends(e: RunEvent) {
    e.terminal && e.outcome.Some? && e.outcome.value != Unknown
  }

  /** The status one event argues for. */
  function Signal(e: RunEvent): Status {
    if Ends(e) then e.outcome.value else Running
  }

  function End(e: RunEvent): nat {
    if e.ended.Some? then e.ended.value else e.key.at
  }

  const METADATA: seq<Field> := [Branch, JobName, ServiceName, Environment]
  const TERMINAL_FIELDS: seq<Field> := [DurationMs, Trigger]

  // ---------------------------------------------------------------- closed form

  /** The persisted state of one run. */
  datatype Summary = Summary(
    status: Status,
    endedAt: Option<nat>,
    startedAt: Option<nat>,
    events: nat,
    errors: nat,
    warnings: nat,
    assets: set<string>,
    values: Values,
    at: WriteKeys,
    derived: seq<Key>,
    minStarted: Option<nat>,
    firstKey: Option<Key>,
    firstFallback: Option<nat>)

  const NEW_RUN :=
    Summary(Unknown, None, None, 0, 0, 0, {}, map[], map[], [], None, None, None)

  ghost function KeysOf(h: set<RunEvent>): set<Key> { set e | e in h :: e.key }

  /** An event id that is not empty leaves a provenance key. */
  ghost function Sources(h: set<RunEvent>): set<Key> { set e | e in h && e.key.eid != 0 :: e.key }

  ghost function ErrorsOf(h: set<RunEvent>): set<RunEvent> { set e | e in h && IsError(e) }

  ghost function WarningsOf(h: set<RunEvent>): set<RunEvent> { set e | e in h && IsWarning(e) }

  ghost function AssetsOf(h: set<RunEvent>): set<string> { set e | e in h && e.asset != "" :: e.asset }

  ghost function SignalsOf(h: set<RunEvent>): set<Status> { set e | e in h :: Signal(e) }

  ghost function EndsOf(h: set<RunEvent>): set<nat> { set e | e in h && Ends(e) :: End(e) }

  ghost function StartsOf(h: set<RunEvent>): set<nat> { set e | e in h && e.started.Some? :: e.started.value }

  /** The event carries a value for the field that is not empty. */
  predicate Offered(e: RunEvent, f: Field) {
    f in e.values && !Empty(e.values[f])
  }

  /** What one event writes to the fields of `fields`. */
  ghost function Offers(e: RunEvent, fields: seq<Field>): set<Write> {
    set f | f in fields && Offered(e, f) :: Write(e.key, f, e.values[f])
  }

  ghost function AllOffers(e: RunEvent): set<Write> {
    Offers(e, METADATA) + if e.terminal then Offers(e, TERMINAL_FIELDS) else {}
  }

  ghost function WritesOf(h: set<RunEvent>): set<Write> {
    set e, w | e in h && w in AllOffers(e) :: w
  }

  /** The status of highest precedence among `s`. */
  ghost predicate Strongest(status: Status, s: set<Status>) {
    if s == {} then status == Unknown
    else status in s && forall x :: x in s ==> Precedence(x) <= Precedence(status)
  }

  /** The asset set, bounded: which assets are kept beyond the cap depends on arrival order. */
  ghost predicate Bounded(assets: set<string>, all: set<string>) {
    assets <= all && |assets| == Min(|all|, MAX_SUMMARY_ASSETS)
  }

  /** The earliest-observed event, and its `observed_at` when it carries no `started_at`. */
  ghost predicate First(key: Option<Key>, fallback: Option<nat>, h: set<RunEvent>) {
    if h == {} then key == None && fallback == None
    else
      && key.Some? && IsLeast(key.value, KeysOf(h))
      && forall e :: e in h && e.key == key.value ==> fallback == if e.started.None? then Some(e.key.at) else None
  }

  function Earlier(a: Option<nat>, b: Option<nat>): Option<nat> {
    if a.None? then b else if b.None? then a else if a.value <= b.value then a else b
  }

  /** The state is the closed form of the events `h`, in whatever order they were folded. */
  ghost predicate Summarises(s: Summary, h: set<RunEvent>) {
    && Strongest(s.status, SignalsOf(h))
    && IsMax(s.endedAt, EndsOf(h))
    && s.events == |h| && s.errors == |ErrorsOf(h)| && s.warnings == |WarningsOf(h)|
    && Bounded(s.assets, AssetsOf(h))
    && Latest(s.values, s.at, WritesOf(h))
    && IsWindow(s.derived, Sources(h), MAX_DERIVED_FROM, KeepEarliest)
    && IsMin(s.minStarted, StartsOf(h))
    && First(s.firstKey, s.firstFallback, h)
    && s.startedAt == Earlier(s.minStarted, s.firstFallback)
  }

  lemma NewRunSummarises()
    ensures Summarises(NEW_RUN, {})
  {
  }

  // ---------------------------------------------------------------- the reducer

  class RunState {
    var status: Status
    var endedAt: Option<nat>
    var startedAt: Option<nat>
    var events: nat
    var errors: nat
    var warnings: nat
    var assets: set<string>
    var values: Values
    var at: WriteKeys
    var derived: seq<Key>
    var minStarted: Option<nat>
    var firstKey: Option<Key>
    var firstFallback: Option<nat>

    constructor (s: Summary)
      ensures Snapshot() == s
    {
      status, endedAt, startedAt := s.status, s.endedAt, s.startedAt;
      events, errors, warnings, assets := s.events, s.errors, s.warnings, s.assets;
      values, at, derived := s.values, s.at, s.derived;
      minStarted, firstKey, firstFallback := s.minStarted, s.firstKey, s.firstFallback;
    }

    function Snapshot(): Summary
      reads this
    {
      Summary(status, endedAt, startedAt, events, errors, warnings, assets, values, at, derived,
              minStarted, firstKey, firstFallback)
    }

    /** `_record`. */
    method Record(key: Key)
      requires Ascending(derived)
      modifies `derived
      ensures key.eid == 0 ==> derived == old(derived)
      ensures key.eid != 0 ==> forall s ::
        IsWindow(old(derived), s, MAX_DERIVED_FROM, KeepEarliest) ==>
        IsWindow(derived, s + {key}, MAX_DERIVED_FROM, KeepEarliest)
    {
      if key.eid == 0 {
        return;
      }
      derived := InsertSorted(derived, key, MAX_DERIVED_FROM, KeepEarliest);
    }

    /** `_set_latest` for each of `fields` in turn. */
    method Offer(fields: seq<Field>, e: RunEvent, ghost g: set<Write>)
      requires Latest(values, at, g)
      modifies `values, `at
      ensures Latest(values, at, g + Offers(e, fields))
    {
      var i := 0;
      assert g + Offers(e, fields[..0]) == g;
      hide Offers, Latest;
      while i < |fields|
        invariant 0 <= i <= |fields|
        invariant Latest(values, at, g + Offers(e, fields[..i]))
      {
        var f := fields[i];
        OfferOne(e, fields, i, g);
        if Offered(e, f) {
          values, at := SetLatest(values, at, f, e.values[f], e.key);
        }
        i := i + 1;
      }
      assert fields[..i] == fields;
    }

    /** The terminal branch: status of highest precedence, latest end. */
    method Close(e: RunEvent)
      requires e.terminal
      modifies `status, `endedAt
      ensures forall s :: Strongest(old(status), s) ==> Strongest(status, s + {Signal(e)})
      ensures forall s :: IsMax(old(endedAt), s) ==> IsMax(endedAt, s + if Ends(e) then {End(e)} else {})
    {
      var newStatus := if e.outcome.None? || e.outcome.value == Unknown then Running else e.outcome.value;
      if Precedence(newStatus) >= Precedence(status) {
        status := newStatus;
      }
      if e.outcome.Some? && e.outcome.value != Unknown {
        var end := if e.ended.Some? then e.ended.value else e.key.at;
        if endedAt.None? || end > endedAt.value {
          endedAt := Some(end);
        }
      }
      assert forall s: set<nat> :: s + {} == s;
    }

    /** `started_at` bookkeeping. */
    method Start(e: RunEvent, ghost h: set<RunEvent>)
      requires e.key !in KeysOf(h)
      requires IsMin(minStarted, StartsOf(h)) && First(firstKey, firstFallback, h)
      modifies `minStarted, `firstKey, `firstFallback, `startedAt
      ensures IsMin(minStarted, StartsOf(h + {e})) && First(firstKey, firstFallback, h + {e})
      ensures startedAt == Earlier(minStarted, firstFallback)
    {
      if e.started.Some? && (minStarted.None? || e.started.value < minStarted.value) {
        minStarted := e.started;
      }
      if firstKey.None? || Less(e.key, firstKey.value) {
        firstKey := Some(e.key);
        firstFallback := if e.started.None? then Some(e.key.at) else None;
      }
      startedAt := Earlier(minStarted, firstFallback);
      StartsWith(h, e);
      FirstWith(h, e, old(firstKey), old(firstFallback));
    }

    /** The counters and the asset set. */
    method Tally(e: RunEvent, ghost h: set<RunEvent>)
      requires e.key !in KeysOf(h)
      requires events == |h| && errors == |ErrorsOf(h)| && warnings == |WarningsOf(h)| && Bounded(assets, AssetsOf(h))
      modifies `events, `errors, `warnings, `assets
      ensures events == |h + {e}| && errors == |ErrorsOf(h + {e})| && warnings == |WarningsOf(h + {e})|
      ensures Bounded(assets, AssetsOf(h + {e}))
    {
      hide Bounded, AssetsOf, ErrorsOf, WarningsOf, KeysOf;
      events := events + 1;
      if e.hasError || e.severity.Error? || e.severity.Critical? {
        errors := errors + 1;
      } else if e.severity.Warn? {
        warnings := warnings + 1;
      }
      if e.asset != "" && |assets| < MAX_SUMMARY_ASSETS {
        assets := assets + {e.asset};
      }
      CountsWith(h, e);
      AssetsWith(old(assets), assets, h, e);
    }

    /** Terminal events move status, end and the terminal fields; any other shows the run exists. */
    method Classify(e: RunEvent, ghost h: set<RunEvent>)
      requires Strongest(status, SignalsOf(h)) && IsMax(endedAt, EndsOf(h))
      requires Latest(values, at, WritesOf(h) + Offers(e, METADATA))
      modifies `status, `endedAt, `values, `at
      ensures Strongest(status, SignalsOf(h + {e})) && IsMax(endedAt, EndsOf(h + {e}))
      ensures Latest(values, at, WritesOf(h + {e}))
    {
      hide Strongest, IsMax, Latest, Offers, AllOffers, Signal, Ends, SignalsOf, EndsOf, WritesOf;
      SignalsWith(h, e);
      WritesWith(h, e);
      if e.terminal {
        Close(e);
        Offer(TERMINAL_FIELDS, e, WritesOf(h) + Offers(e, METADATA));
      } else {
        OpenSignal(status, SignalsOf(h), e);
        if Precedence(status) < Precedence(Running) {
          status := Running;
        }
      }
    }

    /** `apply_run_event`. */
    method Apply(e: RunEvent, ghost h: set<RunEvent>)
      requires Summarises(Snapshot(), h) && e.key !in KeysOf(h)
      modifies this
      ensures Summarises(Snapshot(), h + {e})
    {
      hide Strongest, IsMax, IsMin, First, Latest, IsWindow, Offers, Earlier, Bounded;
      hide SignalsOf, EndsOf, ErrorsOf, WarningsOf, AssetsOf, WritesOf, Sources, StartsOf, KeysOf;
      WindowAscends(derived, Sources(h));
      SourcesWith(h, e);
      Record(e.key);
      Tally(e, h);
      Offer(METADATA, e, WritesOf(h));
      Classify(e, h);
      Start(e, h);
    }
  }

  lemma WindowAscends(w: seq<Key>, s: set<Key>)
    requires IsWindow(w, s, MAX_DERIVED_FROM, KeepEarliest)
    ensures Ascending(w)
  {
  }

  /** A non-terminal event is evidence that the run exists. */
  lemma OpenSignal(status: Status, s: set<Status>, e: RunEvent)
    requires Strongest(status, s) && !e.terminal
    ensures Strongest(if Precedence(status) < Precedence(Running) then Running else status, s + {Signal(e)})
  {
  }

  lemma SourcesWith(h: set<RunEvent>, e: RunEvent)
    ensures Sources(h + {e}) == Sources(h) + if e.key.eid != 0 then {e.key} else {}
  {
  }

  lemma SignalsWith(h: set<RunEvent>, e: RunEvent)
    ensures SignalsOf(h + {e}) == SignalsOf(h) + {Signal(e)}
    ensures EndsOf(h + {e}) == EndsOf(h) + if Ends(e) then {End(e)} else {}
    ensures !e.terminal ==> EndsOf(h + {e}) == EndsOf(h)
  {
    hide Signal;
    assert forall x :: x in SignalsOf(h + {e}) <==> x in SignalsOf(h) || x == Signal(e);
    assert forall x :: x in EndsOf(h + {e}) <==> x in EndsOf(h) || (Ends(e) && x == End(e));
  }

  lemma CountsWith(h: set<RunEvent>, e: RunEvent)
    requires e.key !in KeysOf(h)
    ensures |h + {e}| == |h| + 1
    ensures |ErrorsOf(h + {e})| == |ErrorsOf(h)| + if IsError(e) then 1 else 0
    ensures |WarningsOf(h + {e})| == |WarningsOf(h)| + if IsWarning(e) then 1 else 0
  {
    assert e !in h;
    ErrorsWith(h, e);
    WarningsWith(h, e);
  }

  lemma ErrorsWith(h: set<RunEvent>, e: RunEvent)
    requires e !in h
    ensures |ErrorsOf(h + {e})| == |ErrorsOf(h)| + if IsError(e) then 1 else 0
  {
    hide IsError;
    assert ErrorsOf(h + {e}) == if IsError(e) then ErrorsOf(h) + {e} else ErrorsOf(h);
  }

  lemma WarningsWith(h: set<RunEvent>, e: RunEvent)
    requires e !in h
    ensures |WarningsOf(h + {e})| == |WarningsOf(h)| + if IsWarning(e) then 1 else 0
  {
    hide IsWarning;
    assert WarningsOf(h + {e}) == if IsWarning(e) then WarningsOf(h) + {e} else WarningsOf(h);
  }

  lemma AssetsWith(before: set<string>, after: set<string>, h: set<RunEvent>, e: RunEvent)
    requires Bounded(before, AssetsOf(h))
    requires after == if e.asset != "" && |before| < MAX_SUMMARY_ASSETS then before + {e.asset} else before
    ensures Bounded(after, AssetsOf(h + {e}))
  {
    var all, more := AssetsOf(h), AssetsOf(h + {e});
    assert more == all + if e.asset != "" then {e.asset} else {};
    if |before| < MAX_SUMMARY_ASSETS {
      SubsetOfSameSize(before, all);
    }
  }

  lemma WritesWith(h: set<RunEvent>, e: RunEvent)
    ensures WritesOf(h + {e}) == WritesOf(h) + AllOffers(e)
    ensures e.terminal ==> WritesOf(h) + AllOffers(e) == WritesOf(h) + Offers(e, METADATA) + Offers(e, TERMINAL_FIELDS)
    ensures !e.terminal ==> AllOffers(e) == Offers(e, METADATA)
  {
    hide Offers;
    assert WritesOf(h + {e}) == WritesOf(h) + AllOffers(e) by {
      hide AllOffers;
      assert forall w :: w in WritesOf(h + {e}) <==> w in WritesOf(h) || w in AllOffers(e);
    }
  }

  lemma OfferOne(e: RunEvent, fields: seq<Field>, i: nat, g: set<Write>)
    requires i < |fields|
    ensures Offered(e, fields[i]) ==>
      g + Offers(e, fields[..i + 1]) == g + Offers(e, fields[..i]) + {Write(e.key, fields[i], e.values[fields[i]])}
    ensures !Offered(e, fields[i]) ==> g + Offers(e, fields[..i + 1]) == g + Offers(e, fields[..i])
  {
    assert fields[..i + 1] == fields[..i] + [fields[i]];
  }

  lemma StartsWith(h: set<RunEvent>, e: RunEvent)
    ensures StartsOf(h + {e}) == StartsOf(h) + if e.started.Some? then {e.started.value} else {}
  {
    assert forall x :: x in StartsOf(h + {e}) <==> x in StartsOf(h) || e.started == Some(x);
  }

  lemma FirstWith(h: set<RunEvent>, e: RunEvent, key: Option<Key>, fallback: Option<nat>)
    requires First(key, fallback, h) && e.key !in KeysOf(h)
    ensures
      if key.None? || Less(e.key, key.value)
      then First(Some(e.key), if e.started.None? then Some(e.key.at) else None, h + {e})
      else First(key, fallback, h + {e})
  {
    assert KeysOf(h + {e}) == KeysOf(h) + {e.key};
    assert e in h + {e};
    if h != {} {
      var x :| x in h;
      assert x.key in KeysOf(h);
    }
  }
}

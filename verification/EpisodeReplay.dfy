/** When incremental folding of one dedupe key agrees with a replay of its whole history. */
module EpisodeReplay {
  import opened Keys
  import opened EpisodeSpec

  // ---------------------------------------------------------------- one step, exactly

  /** A finding, late or on time, keeps the replay partition exactly when `FailureIsSafe`. */
  lemma FailureKeepsReplay(c: Chain, f: Key)
    requires c.Canonical()
    ensures OnFailure(c, f).Canonical() <==> FailureIsSafe(c, f)
  {
    var P, B, S := c.producers + {f}, c.bounds, c.stored;
    match Earliest(B, f.at)
    case None =>
      FailureBeyond(c.producers, B, S, f);
      NormalIsCanonical(P, B, S);
    case Some(b) =>
      BoundIsStored(c, b);
      assert f in Row(P, B, b);
      var first := Least(Row(P, B, b));
      if Less(Earliest(S, first.at).value, b) {
        FailureMoves(c.producers, B, S, f, b, Earliest(S, first.at).value);
      } else {
        FailureIdle(c.producers, B, S, f, b);
        CanonicalIsTiled(c);
        OnFailureTiled(c, f);
        TiledAndAgreesIsCanonical(OnFailure(c, f));
      }
  }

  lemma FailureBeyond(P: set<Key>, B: set<Key>, S: set<Key>, f: Key)
    requires Agrees(P, B, S) && Earliest(B, f.at).None?
    ensures forall p :: p in P + {f} ==> Owner(p.at, B, S) == Earliest(S, p.at)
  {
  }

  lemma FailureIdle(P: set<Key>, B: set<Key>, S: set<Key>, f: Key, b: Key)
    requires Agrees(P, B, S) && Earliest(B, f.at) == Some(b) && b in S
    requires Row(P + {f}, B, b) != {}
    requires var r := Earliest(S, Least(Row(P + {f}, B, b)).at); r.Some? && !Less(r.value, b)
    ensures Agrees(P + {f}, B, S)
  {
    assert f in Row(P + {f}, B, b);
    EarliestIs(S, f.at, b);
  }

  lemma BoundIsStored(c: Chain, b: Key)
    requires c.Canonical() && b in c.bounds
    ensures b in c.stored && Row(c.producers, c.bounds, b) != {}
  {
    var p :| p in c.producers && Owner(p.at, {}, c.stored) == Some(b);
    assert p in Row(c.producers, c.bounds, b);
  }

  /** Only a finding that becomes its row's first producer can uncover an earlier stored success. */
  lemma FailureMoves(P0: set<Key>, B: set<Key>, S: set<Key>, f: Key, b: Key, m: Key)
    requires Agrees(P0, B, S) && b in B && b in S && m in S && Earliest(B, f.at) == Some(b)
    requires Row(P0 + {f}, B, b) != {}
    requires Earliest(S, Least(Row(P0 + {f}, B, b)).at) == Some(m) && Less(m, b)
    ensures Normal(P0 + {f}, B - {b} + {m}, S).Canonical() <==> MoveIsSafe(P0 + {f}, B, b, m)
  {
    var P := P0 + {f};
    var first := Least(Row(P, B, b));
    assert first == f;
    forall p | p in P && p !in Row(P, B, b) ensures Earliest(B, p.at) == Earliest(S, p.at) {
      assert p != f;
    }
    MovedBound(P, B, S, b, m);
  }

  /** A success, late or on time, keeps the replay partition exactly when `SuccessIsSafe`. */
  lemma SuccessKeepsReplay(c: Chain, s: Key)
    requires c.Canonical()
    ensures OnSuccess(c, s).Canonical() <==> SuccessIsSafe(c, s)
  {
    var P, B, S := c.producers, c.bounds, c.stored + {s};
    match Earliest(B, s.at)
    case None =>
      SuccessBeyond(P, B, c.stored, s);
      NormalIsCanonical(P, B, S);
    case Some(b) =>
      BoundIsStored(c, b);
      var first := Least(Row(P, B, b));
      if first.at <= s.at && Less(s, b) {
        SuccessMoves(P, B, c.stored, s, b);
      } else {
        SuccessIdle(P, B, c.stored, s, b);
        CanonicalIsTiled(c);
        OnSuccessTiled(c, s);
        TiledAndAgreesIsCanonical(OnSuccess(c, s));
      }
  }

  lemma SuccessBeyond(P: set<Key>, B: set<Key>, S: set<Key>, s: Key)
    requires Agrees(P, B, S) && Earliest(B, s.at).None?
    ensures forall p :: p in P ==> Owner(p.at, B, S + {s}) == Earliest(S + {s}, p.at)
  {
    forall p | p in P ensures Owner(p.at, B, S + {s}) == Earliest(S + {s}, p.at) {
      if Earliest(B, p.at).Some? { EarliestIs(S + {s}, p.at, Earliest(B, p.at).value); }
    }
  }

  lemma SuccessMoves(P: set<Key>, B: set<Key>, S: set<Key>, s: Key, b: Key)
    requires Agrees(P, B, S) && Earliest(B, s.at) == Some(b) && b in S && Less(s, b)
    requires Row(P, B, b) != {} && Least(Row(P, B, b)).at <= s.at
    ensures Normal(P, B - {b} + {s}, S + {s}).Canonical() <==> MoveIsSafe(P, B, b, s)
  {
    var T := S + {s};
    EarliestIs(T, Least(Row(P, B, b)).at, s);
    forall p | p in P && p !in Row(P, B, b) ensures Earliest(B, p.at) == Earliest(T, p.at) {
      SuccessOffRow(B, S, s, b, p);
    }
    forall p | p in Row(P, B, b) && p.at > s.at ensures Earliest(T, p.at) == Some(b) {
      EarliestIs(T, p.at, b);
    }
    MovedBound(P, B, T, b, s);
  }

  lemma SuccessIdle(P: set<Key>, B: set<Key>, S: set<Key>, s: Key, b: Key)
    requires Agrees(P, B, S) && Earliest(B, s.at) == Some(b) && b in S
    requires Row(P, B, b) != {} && (Least(Row(P, B, b)).at > s.at || AtMost(b, s))
    ensures Agrees(P, B, S + {s})
  {
    forall p | p in P ensures Earliest(B, p.at) == Earliest(S + {s}, p.at) {
      if Earliest(B, p.at) != Some(b) {
        SuccessOffRow(B, S, s, b, p);
      } else {
        assert p in Row(P, B, b);
        EarliestIs(S + {s}, p.at, b);
      }
    }
  }

  lemma SuccessOffRow(B: set<Key>, S: set<Key>, s: Key, b: Key, p: Key)
    requires Earliest(B, s.at) == Some(b)
    requires Earliest(B, p.at) == Earliest(S, p.at) && Earliest(B, p.at) != Some(b)
    ensures Earliest(S + {s}, p.at) == Earliest(B, p.at)
  {
    var o := Earliest(B, p.at);
    if o.Some? {
      EarliestIs(S + {s}, p.at, o.value);
    } else {
      assert b.at < p.at;
    }
  }

  // ---------------------------------------------------------------- whole runs

  datatype Event = Failure(key: Key) | Success(key: Key)

  ghost function Step(c: Chain, e: Event): Chain {
    match e
    case Failure(f) => OnFailure(c, f)
    case Success(s) => OnSuccess(c, s)
  }

  ghost function Run(c: Chain, es: seq<Event>): Chain
    decreases |es|
  {
    if es == [] then c else Run(Step(c, es[0]), es[1..])
  }

  ghost predicate Safe(c: Chain, e: Event) {
    match e
    case Failure(f) => FailureIsSafe(c, f)
    case Success(s) => SuccessIsSafe(c, s)
  }

  ghost predicate AllSafe(c: Chain, es: seq<Event>)
    decreases |es|
  {
    es == [] || (Safe(c, es[0]) && AllSafe(Step(c, es[0]), es[1..]))
  }

  function Failures(es: seq<Event>): set<Key> {
    set e | e in es && e.Failure? :: e.key
  }

  function Successes(es: seq<Event>): set<Key> {
    set e | e in es && e.Success? :: e.key
  }

  lemma FirstEvent(es: seq<Event>)
    requires es != []
    ensures Failures(es) == Failures(es[1..]) + if es[0].Failure? then {es[0].key} else {}
    ensures Successes(es) == Successes(es[1..]) + if es[0].Success? then {es[0].key} else {}
  {
    assert forall e :: e in es <==> e == es[0] || e in es[1..];
    forall k ensures k in Failures(es) <==> k in Failures(es[1..]) || (es[0].Failure? && k == es[0].key) {
      assert k in Failures(es) <==> Failure(k) in es;
      assert k in Failures(es[1..]) <==> Failure(k) in es[1..];
    }
    forall k ensures k in Successes(es) <==> k in Successes(es[1..]) || (es[0].Success? && k == es[0].key) {
      assert k in Successes(es) <==> Success(k) in es;
      assert k in Successes(es[1..]) <==> Success(k) in es[1..];
    }
  }

  /** Safety over every run, safe or not: no producer is lost or doubled, every bound closes one, and
      nothing stays open past a stored success. */
  lemma {:induction false} RunIsTiled(c: Chain, es: seq<Event>)
    requires c.Tiled()
    ensures Run(c, es).Tiled()
    ensures Run(c, es).producers == c.producers + Failures(es)
    ensures Run(c, es).stored == c.stored + Successes(es)
    decreases |es|
  {
    if es != [] {
      match es[0] {
        case Failure(f) => OnFailureTiled(c, f);
        case Success(s) => OnSuccessTiled(c, s);
      }
      FirstEvent(es);
      RunIsTiled(Step(c, es[0]), es[1..]);
    } else {
      assert Failures(es) == {} && Successes(es) == {};
    }
  }

  /** Any arrival order all of whose steps are safe ends in the replay partition of what arrived. */
  lemma {:induction false} SafeRunConverges(c: Chain, es: seq<Event>)
    requires c.Canonical() && AllSafe(c, es)
    ensures Run(c, es).Canonical()
    ensures Run(c, es) == Normal(c.producers + Failures(es), {}, c.stored + Successes(es))
    decreases |es|
  {
    SafeRunIsCanonical(c, es);
    CanonicalIsTiled(c);
    RunIsTiled(c, es);
    CanonicalIsTiled(Run(c, es));
  }

  lemma {:induction false} SafeRunIsCanonical(c: Chain, es: seq<Event>)
    requires c.Canonical() && AllSafe(c, es)
    ensures Run(c, es).Canonical()
    decreases |es|
  {
    if es != [] {
      match es[0] {
        case Failure(f) => FailureKeepsReplay(c, f);
        case Success(s) => SuccessKeepsReplay(c, s);
      }
      SafeRunIsCanonical(Step(c, es[0]), es[1..]);
    }
  }

  /** Events in fold order, after everything the chain holds.  In a rebuild every success is stored
      beforehand; in incremental ingest each is stored just before its own step. */
  ghost predicate InFoldOrder(c: Chain, es: seq<Event>) {
    && (forall i, j :: 0 <= i < j < |es| ==> Less(es[i].key, es[j].key))
    && (forall e, k :: e in es && k in c.producers ==> Less(k, e.key))
    && (forall e :: e in es && e.Success? ==> NewestOrKnown(c.stored, e.key))
  }

  ghost predicate NewestOrKnown(stored: set<Key>, s: Key) {
    s in stored || forall k :: k in stored ==> Less(k, s)
  }

  lemma FoldOrderStepIsSafe(c: Chain, e: Event)
    requires c.Canonical()
    requires forall k :: k in c.producers ==> Less(k, e.key)
    requires e.Success? ==> NewestOrKnown(c.stored, e.key)
    ensures Safe(c, e)
  {
    if Earliest(c.bounds, e.key.at).Some? {
      var b := Earliest(c.bounds, e.key.at).value;
      BoundIsStored(c, b);
      match e
      case Failure(f) => NewestFailureMovesNothing(c.producers, c.bounds, c.stored, f, b);
      case Success(s) => assert AtMost(b, s);
    }
  }

  lemma NewestFailureMovesNothing(P: set<Key>, B: set<Key>, S: set<Key>, f: Key, b: Key)
    requires Agrees(P, B, S) && Row(P, B, b) != {} && Earliest(B, f.at) == Some(b)
    requires forall k :: k in P ==> Less(k, f)
    ensures f in Row(P + {f}, B, b) && Earliest(S, Least(Row(P + {f}, B, b)).at) == Some(b)
  {
    var row := Row(P + {f}, B, b);
    var p := Least(Row(P, B, b));
    assert p in row && f in row && Less(p, f);
  }

  /** Folding in key order is safe at every step: with `SafeRunConverges` and `CanonicalRows` of the
      reference timeline, replay yields one row per success-delimited failure episode. */
  lemma {:induction false} FoldOrderIsSafe(c: Chain, es: seq<Event>)
    requires c.Canonical() && InFoldOrder(c, es)
    ensures AllSafe(c, es)
    decreases |es|
  {
    if es != [] {
      var e := es[0];
      assert e in es;
      FoldOrderStepIsSafe(c, e);
      CanonicalIsTiled(c);
      match e {
        case Failure(f) => FailureKeepsReplay(c, f); OnFailureTiled(c, f);
        case Success(s) => SuccessKeepsReplay(c, s); OnSuccessTiled(c, s);
      }
      TailInFoldOrder(c, es);
      FoldOrderIsSafe(Step(c, e), es[1..]);
    }
  }

  lemma TailInFoldOrder(c: Chain, es: seq<Event>)
    requires es != [] && InFoldOrder(c, es)
    requires Step(c, es[0]).producers == c.producers + if es[0].Failure? then {es[0].key} else {}
    requires Step(c, es[0]).stored == c.stored + if es[0].Success? then {es[0].key} else {}
    ensures InFoldOrder(Step(c, es[0]), es[1..])
  {
    forall e | e in es[1..] ensures e in es && Less(es[0].key, e.key) {
      var i :| 0 <= i < |es[1..]| && es[1..][i] == e;
      assert es[i + 1] == e;
    }
  }

  const EMPTY := Chain({}, {}, {})

  /** Incremental ingest in observed order and a rebuild over all stored successes build one chain. */
  lemma IncrementalEqualsRebuild(es: seq<Event>)
    requires forall i, j :: 0 <= i < j < |es| ==> Less(es[i].key, es[j].key)
    ensures Run(EMPTY, es) == Run(Chain({}, {}, Successes(es)), es) == Normal(Failures(es), {}, Successes(es))
  {
    var full := Chain({}, {}, Successes(es));
    assert Live({}, {}, {}) == {} && Live({}, {}, Successes(es)) == {};
    assert EMPTY.Canonical() && full.Canonical();
    forall e | e in es && e.Success? ensures e.key in Successes(es) {}
    FoldOrderIsSafe(EMPTY, es);
    FoldOrderIsSafe(full, es);
    SafeRunConverges(EMPTY, es);
    SafeRunConverges(full, es);
    assert {} + Failures(es) == Failures(es);
    assert {} + Successes(es) == Successes(es) == Successes(es) + Successes(es);
  }

  lemma {:induction false} RunOfSum(c: Chain, es: seq<Event>, gs: seq<Event>)
    ensures Run(c, es + gs) == Run(Run(c, es), gs)
    decreases |es|
  {
    if es == [] {
      assert es + gs == gs;
    } else {
      assert (es + gs)[1..] == es[1..] + gs;
      RunOfSum(Step(c, es[0]), es[1..], gs);
    }
  }

  const ON_TIME: seq<Event> :=
    [Failure(Key(1, 1)), Failure(Key(3, 1)), Success(Key(4, 1)), Failure(Key(5, 1)), Success(Key(6, 1))]

  const LATE := Success(Key(2, 1))

  /** Arrival order does matter: failures at 1, 3, 5, successes at 4, 6, then a late success at 2.
      Row 1-3 closes at 2 and the failure at 3 goes to the row closed at 6, where a replay keeps a
      row closed at 4. */
  lemma LateSuccessDiverges()
    ensures !Run(EMPTY, ON_TIME + [LATE]).Canonical()
    ensures Run(EMPTY, ON_TIME + [LATE]) != Normal(Failures(ON_TIME + [LATE]), {}, Successes(ON_TIME + [LATE]))
  {
    var c := Run(EMPTY, ON_TIME);
    OnTimeHistory();
    SuccessKeepsReplay(c, LATE.key);
    UnsafeSuccess(c);
    RunOfSum(EMPTY, ON_TIME, [LATE]);
    assert Run(c, [LATE]) == Step(c, LATE) by {
      assert [LATE][1..] == [];
      assert [LATE][0] == LATE;
    }
    NormalOfNothingIsCanonical(Failures(ON_TIME + [LATE]), Successes(ON_TIME + [LATE]));
  }

  lemma NormalOfNothingIsCanonical(P: set<Key>, S: set<Key>)
    ensures Normal(P, {}, S).Canonical()
  {
    NormalIsCanonical(P, {}, S);
  }

  lemma OnTimeHistory()
    ensures var c := Run(EMPTY, ON_TIME);
      && c.producers == {Key(1, 1), Key(3, 1), Key(5, 1)} && c.bounds == {Key(4, 1), Key(6, 1)} == c.stored
      && c.Canonical()
  {
    var P, S := Failures(ON_TIME), Successes(ON_TIME);
    assert Run(EMPTY, ON_TIME) == Normal(P, {}, S) by { OnTimeReplay(); }
    OnTimeSets();
    OnTimeBounds(P, S);
    NormalOfNothingIsCanonical(P, S);
  }

  lemma OnTimeReplay()
    ensures Run(EMPTY, ON_TIME) == Normal(Failures(ON_TIME), {}, Successes(ON_TIME))
  {
    IncrementalEqualsRebuild(ON_TIME);
  }

  lemma OnTimeSets()
    ensures Failures(ON_TIME) == {Key(1, 1), Key(3, 1), Key(5, 1)}
    ensures Successes(ON_TIME) == {Key(4, 1), Key(6, 1)}
  {
    forall k ensures k in Failures(ON_TIME) <==> k in {Key(1, 1), Key(3, 1), Key(5, 1)} {
      assert k in Failures(ON_TIME) <==> Failure(k) in ON_TIME;
    }
    forall k ensures k in Successes(ON_TIME) <==> k in {Key(4, 1), Key(6, 1)} {
      assert k in Successes(ON_TIME) <==> Success(k) in ON_TIME;
    }
  }

  lemma OnTimeBounds(P: set<Key>, S: set<Key>)
    requires P == {Key(1, 1), Key(3, 1), Key(5, 1)} && S == {Key(4, 1), Key(6, 1)}
    ensures Live(P, {}, S) == S
  {
    EarliestIs(S, 1, Key(4, 1));
    EarliestIs(S, 3, Key(4, 1));
    EarliestIs(S, 5, Key(6, 1));
    assert Key(1, 1) in P && Owner(Key(1, 1).at, {}, S) == Some(Key(4, 1));
    assert Key(5, 1) in P && Owner(Key(5, 1).at, {}, S) == Some(Key(6, 1));
  }

  lemma UnsafeSuccess(c: Chain)
    requires c.producers == {Key(1, 1), Key(3, 1), Key(5, 1)} && c.bounds == {Key(4, 1), Key(6, 1)} == c.stored
    ensures !SuccessIsSafe(c, Key(2, 1))
  {
    var b, s := Key(4, 1), Key(2, 1);
    EarliestIs(c.bounds, 2, b);
    EarliestIs(c.bounds, 1, b);
    EarliestIs(c.bounds, 3, b);
    var row := Row(c.producers, c.bounds, b);
    assert Key(1, 1) in row && Key(3, 1) in row;
    assert Least(row).at <= 1;
    assert Key(6, 1) in c.bounds && !AtMost(Key(6, 1), b);
  }
}

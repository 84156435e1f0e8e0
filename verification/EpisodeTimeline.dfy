/** An independent reading of an insight timeline: one pass over the marks in observed order, opening
    an episode at a failure and closing it at the next success. */
module EpisodeTimeline {
  import opened Keys
  import opened EpisodeSpec
  import opened EpisodeReplay

  datatype Episode = Episode(bound: Option<Key>, members: set<Key>)

  /** Observed order; at one instant failures come first, so a success closes them. */
  predicate Before(a: Event, b: Event) {
    || a.key.at < b.key.at
    || (a.key.at == b.key.at && a.Failure? && b.Success?)
    || (a.key.at == b.key.at && a.Failure? == b.Failure? && a.key.eid < b.key.eid)
  }

  predicate Timeline(es: seq<Event>) {
    forall i, j :: 0 <= i < j < |es| ==> Before(es[i], es[j])
  }

  /** The episodes of a timeline, `open` holding the failures not yet resolved. */
  function Episodes(es: seq<Event>, open: set<Key>): seq<Episode> {
    if es == [] then
      if open == {} then [] else [Episode(None, open)]
    else
      match es[0]
      case Failure(f) => Episodes(es[1..], open + {f})
      case Success(s) =>
        if open == {} then Episodes(es[1..], {})
        else [Episode(Some(s), open)] + Episodes(es[1..], {})
  }

  /** The rows of the chain that `P` and `S` determine. */
  ghost predicate IsRow(e: Episode, P: set<Key>, S: set<Key>) {
    e.members != {} && e.members == Members(P, {}, S, e.bound)
  }

  lemma TimelineTail(es: seq<Event>)
    requires es != [] && Timeline(es)
    ensures Timeline(es[1..])
    ensures forall e :: e in es[1..] ==> Before(es[0], e)
  {
    forall e | e in es[1..] ensures Before(es[0], e) {
      var i :| 0 <= i < |es[1..]| && es[1..][i] == e;
      assert es[i + 1] == e;
    }
  }

  ghost predicate AreRows(eps: seq<Episode>, P: set<Key>, S: set<Key>) {
    && (forall e :: e in eps <==> IsRow(e, P, S))
    && (forall i, j :: 0 <= i < j < |eps| ==> eps[i].bound != eps[j].bound)
  }

  /** One pass over the timeline produces exactly the canonical rows, each once. */
  lemma {:induction false} EpisodesAreRows(es: seq<Event>, open: set<Key>)
    requires Timeline(es)
    requires forall e, k :: e in es && k in open ==> Before(Failure(k), e)
    ensures AreRows(Episodes(es, open), open + Failures(es), Successes(es))
  {
    if es == [] {
      OnlyOpen(open);
      assert Failures(es) == {} && Successes(es) == {} && open + {} == open;
    } else {
      TimelineTail(es);
      FirstEvent(es);
      match es[0]
      case Failure(f) =>
        assert forall e, k :: e in es[1..] && k in open + {f} ==> Before(Failure(k), e);
        EpisodesAreRows(es[1..], open + {f});
        assert open + {f} + Failures(es[1..]) == open + Failures(es);
        assert Successes(es) == Successes(es[1..]);
      case Success(s) =>
        EpisodesAreRows(es[1..], {});
        assert {} + Failures(es[1..]) == Failures(es[1..]) == Failures(es);
        SuccessCloses(es, open, s);
    }
  }

  lemma SuccessCloses(es: seq<Event>, open: set<Key>, s: Key)
    requires Timeline(es) && es != [] && es[0] == Success(s)
    requires Failures(es) == Failures(es[1..]) && Successes(es) == Successes(es[1..]) + {s}
    requires forall e, k :: e in es && k in open ==> Before(Failure(k), e)
    requires AreRows(Episodes(es[1..], {}), Failures(es), Successes(es[1..]))
    ensures AreRows(Episodes(es, open), open + Failures(es), Successes(es))
  {
    var P, T := Failures(es), Successes(es[1..]);
    TimelineTail(es);
    forall k | k in P ensures k.at > s.at { assert Failure(k) in es[1..]; }
    forall k | k in T ensures Less(s, k) { assert Success(k) in es[1..]; }
    assert forall k :: k in open ==> k.at <= s.at by { assert es[0] in es; }
    ClosedEpisode(open, P, T, s);
    if open == {} {
      assert open + P == P;
      forall e ensures e in Episodes(es, open) <==> IsRow(e, open + P, T + {s}) {
        assert IsRow(e, P, T) <==> IsRow(e, open + P, T + {s});
      }
    } else {
      SplitEpisodes(es, open, P, T, s);
    }
  }

  lemma OnlyOpen(open: set<Key>)
    ensures forall e: Episode :: IsRow(e, open, {}) <==> open != {} && e == Episode(None, open)
  {
    forall e: Episode ensures IsRow(e, open, {}) <==> open != {} && e == Episode(None, open) {
      assert e.bound.None? ==> Members(open, {}, {}, e.bound) == open;
      assert e.bound.Some? ==> Members(open, {}, {}, e.bound) == {};
    }
  }

  /** Everything open is closed by the first success `s`, and later rows do not see `s`. */
  lemma ClosedEpisode(open: set<Key>, P: set<Key>, T: set<Key>, s: Key)
    requires forall k :: k in open ==> k.at <= s.at
    requires forall k :: k in P ==> k.at > s.at
    requires forall k :: k in T ==> Less(s, k)
    ensures Members(open + P, {}, T + {s}, Some(s)) == open
    ensures forall b: Option<Key> :: b != Some(s) ==> Members(open + P, {}, T + {s}, b) == Members(P, {}, T, b)
    ensures Members(P, {}, T, Some(s)) == {}
  {
    forall k | k in open ensures Earliest(T + {s}, k.at) == Some(s) { EarliestIs(T + {s}, k.at, s); }
    forall k | k in P ensures Earliest(T + {s}, k.at) == Earliest(T, k.at) {
      if Earliest(T, k.at).Some? { EarliestIs(T + {s}, k.at, Earliest(T, k.at).value); }
    }
    forall b: Option<Key> | b != Some(s) ensures Members(open + P, {}, T + {s}, b) == Members(P, {}, T, b) {
      assert forall k :: k in Members(open + P, {}, T + {s}, b) <==> k in Members(P, {}, T, b);
    }
  }

  lemma SplitEpisodes(es: seq<Event>, open: set<Key>, P: set<Key>, T: set<Key>, s: Key)
    requires es != [] && es[0] == Success(s) && open != {}
    requires AreRows(Episodes(es[1..], {}), P, T)
    requires Members(open + P, {}, T + {s}, Some(s)) == open
    requires forall b: Option<Key> :: b != Some(s) ==> Members(open + P, {}, T + {s}, b) == Members(P, {}, T, b)
    requires Members(P, {}, T, Some(s)) == {}
    ensures AreRows(Episodes(es, open), open + P, T + {s})
  {
    var first, rest := Episode(Some(s), open), Episodes(es[1..], {});
    assert Episodes(es, open) == [first] + rest;
    forall e ensures e in Episodes(es, open) <==> IsRow(e, open + P, T + {s}) {
      assert e in Episodes(es, open) <==> e == first || e in rest;
    }
    forall j | 0 <= j < |rest| ensures rest[j].bound != Some(s) { assert rest[j] in rest; }
  }

  /** Replay, incremental or rebuilt, ends with exactly one row per success-delimited failure episode. */
  lemma ReplayEqualsEpisodes(arrived: seq<Event>, timeline: seq<Event>)
    requires forall i, j :: 0 <= i < j < |arrived| ==> Less(arrived[i].key, arrived[j].key)
    requires Timeline(timeline) && multiset(arrived) == multiset(timeline)
    ensures var c := Run(EMPTY, arrived);
      forall e: Episode :: e in Episodes(timeline, {}) <==>
        e.members != {} && e.members == Members(c.producers, c.bounds, c.stored, e.bound)
  {
    IncrementalEqualsRebuild(arrived);
    EpisodesAreRows(timeline, {});
    assert forall e :: e in arrived <==> e in multiset(arrived);
    assert forall e :: e in timeline <==> e in multiset(timeline);
    assert Failures(arrived) == Failures(timeline) && Successes(arrived) == Successes(timeline);
    var P, S := Failures(arrived), Successes(arrived);
    assert {} + P == P;
    NormalIsTiled(P, {}, S);
    SameOwnersSameRows(P, {}, Live(P, {}, S), S);
  }
}

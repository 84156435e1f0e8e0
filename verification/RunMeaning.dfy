/** What the columns of a run say about its events, in the events' own words: status, end, counters and the
    fields of the newest writer. */
module RunMeaning {
  import opened Keys
  import opened LatestWrites
  import opened RunFold
  import opened RunTable

  /** Some terminal event reports one of `words`. */
  ghost predicate Says(h: set<RunEvent>, words: set<Status>) {
    exists e :: e in h && e.terminal && e.outcome.Some? && e.outcome.value in words
  }

  const FAILED_WORDS: set<Status> := {Failure, Failed}
  const SUCCESS_WORDS: set<Status> := {Success, Succeeded}
  const PARTIAL_WORDS: set<Status> := {Degraded, Partial}
  const FINAL_WORDS: set<Status> := {Failure, Failed, Success, Succeeded, Cancelled, Degraded, Partial}

  /** One reported failure makes the run a failure, whatever else is reported and in whatever order; then a
      success counts, then a cancellation, then a partial outcome.  Short of these, any event but a terminal
      `queued` shows the run running. */
  ghost predicate StatusIs(status: Status, h: set<RunEvent>) {
    && (status in FAILED_WORDS <==> Says(h, FAILED_WORDS))
    && (status in SUCCESS_WORDS <==> Says(h, SUCCESS_WORDS) && !Says(h, FAILED_WORDS))
    && (status == Cancelled <==> Says(h, {Cancelled}) && !Says(h, FAILED_WORDS + SUCCESS_WORDS))
    && (status in PARTIAL_WORDS <==> Says(h, PARTIAL_WORDS) && !Says(h, FINAL_WORDS - PARTIAL_WORDS))
    && (status == Running <==> !Says(h, FINAL_WORDS) && exists e :: e in h && !(e.terminal && e.outcome == Some(Queued)))
    && (status == Queued <==> h != {} && forall e :: e in h ==> e.terminal && e.outcome == Some(Queued))
    && (status == Unknown <==> h == {})
  }

  lemma StatusMeans(status: Status, h: set<RunEvent>)
    requires Strongest(status, SignalsOf(h))
    ensures StatusIs(status, h)
  {
    hide Strongest, SignalsOf, Says;
    if h == {} {
      NothingSaid(status);
    } else {
      SomeSignal(h);
      NoWord(h);
      ClassIs(status, h, FAILED_WORDS, {}, 5);
      ClassIs(status, h, SUCCESS_WORDS, FAILED_WORDS, 4);
      ClassIs(status, h, {Cancelled}, FAILED_WORDS + SUCCESS_WORDS, 3);
      ClassIs(status, h, PARTIAL_WORDS, FINAL_WORDS - PARTIAL_WORDS, 2);
      OpenWords(status, h);
    }
  }

  lemma NoWord(h: set<RunEvent>)
    ensures !Says(h, {})
  {
  }

  lemma NothingSaid(status: Status)
    requires Strongest(status, SignalsOf({}))
    ensures status == Unknown && forall words :: !Says({}, words)
  {
    assert SignalsOf({}) == {};
  }

  lemma SomeSignal(h: set<RunEvent>)
    requires h != {}
    ensures SignalsOf(h) != {}
  {
    var e :| e in h;
    assert Signal(e) in SignalsOf(h);
  }

  /** A class of words is the status exactly when it is reported and no class above it is. */
  lemma ClassIs(status: Status, h: set<RunEvent>, words: set<Status>, above: set<Status>, p: nat)
    requires Strongest(status, SignalsOf(h)) && SignalsOf(h) != {} && p > 1
    requires forall x :: x in words <==> Precedence(x) == p
    requires forall x :: x in above <==> Precedence(x) > p
    ensures status in words <==> Says(h, words) && !Says(h, above)
  {
    WordsAreSignals(h, words);
    WordsAreSignals(h, above);
    hide Says, SignalsOf;
  }

  /** Below the final words: running, unless every event is a terminal `queued`. */
  lemma OpenWords(status: Status, h: set<RunEvent>)
    requires Strongest(status, SignalsOf(h)) && h != {}
    ensures status == Running <==> !Says(h, FINAL_WORDS) && exists e :: e in h && !(e.terminal && e.outcome == Some(Queued))
    ensures status == Queued <==> forall e :: e in h ==> e.terminal && e.outcome == Some(Queued)
    ensures status != Unknown
  {
    WordsAreSignals(h, FINAL_WORDS);
    forall e | e in h ensures Signal(e) in SignalsOf(h) {
    }
    var d :| d in h && Signal(d) == status;
    SignalWord(d);
    forall e | e in h ensures Signal(e) != Unknown && (Signal(e) == Queued <==> e.terminal && e.outcome == Some(Queued)) {
      SignalWord(e);
    }
    hide Says, Signal;
  }

  /** Final words are reported exactly when they are signalled. */
  lemma WordsAreSignals(h: set<RunEvent>, words: set<Status>)
    requires words <= FINAL_WORDS
    ensures Says(h, words) <==> exists x :: x in SignalsOf(h) && x in words
  {
    if Says(h, words) {
      var e :| e in h && e.terminal && e.outcome.Some? && e.outcome.value in words;
      assert Signal(e) in SignalsOf(h);
    }
    if x :| x in SignalsOf(h) && x in words {
      var e :| e in h && Signal(e) == x;
    }
  }

  lemma SignalWord(e: RunEvent)
    ensures Signal(e) == Queued <==> e.terminal && e.outcome == Some(Queued)
    ensures Signal(e) != Unknown
  {
  }

  /** With the outcome words of canonical events. */
  lemma CanonicalStatus(s: Summary, h: set<RunEvent>)
    requires Summarises(s, h) && CanonicalOutcomes(h)
    ensures s.status == Failure <==> Says(h, {Failure})
    ensures s.status == Success <==> Says(h, {Success}) && !Says(h, {Failure})
    ensures s.status == Cancelled <==> Says(h, {Cancelled}) && !Says(h, {Failure, Success})
    ensures s.status == Partial <==> Says(h, {Partial}) && !Says(h, {Failure, Success, Cancelled})
    ensures s.status == Running <==> h != {} && !Says(h, {Failure, Success, Cancelled, Partial})
    ensures s.status == Unknown <==> h == {}
  {
    hide IsMax, Latest, IsWindow, IsMin, First, Bounded;
    StatusMeans(s.status, h);
  }

  /** The stored columns say the same. */
  lemma StoredStatus(row: Row, h: set<RunEvent>)
    requires RowOf(row, h)
    ensures StatusIs(row.status, h)
  {
    hide IsMax, Latest, IsWindow, IsMin, First, Bounded, StatusIs, Strongest;
    StatusMeans(Load(row).status, h);
  }

  /** The end is the latest end, or observation, of a terminal event with a final outcome; the counters count
      each event once, as an error, as a warning, or as neither. */
  lemma ColumnsMean(s: Summary, h: set<RunEvent>)
    requires Summarises(s, h)
    ensures s.endedAt.None? <==> forall e :: e in h && e.terminal ==> e.outcome.None? || e.outcome == Some(Unknown)
    ensures forall e :: e in h && e.terminal && e.outcome.Some? && e.outcome.value != Unknown ==>
      s.endedAt.Some? && (if e.ended.Some? then e.ended.value else e.key.at) <= s.endedAt.value
    ensures s.endedAt.Some? ==>
      exists e :: e in h && e.terminal && e.outcome.Some? && s.endedAt.value == if e.ended.Some? then e.ended.value else e.key.at
    ensures s.events == |h|
    ensures s.errors == |set e | e in h && (e.hasError || e.severity in {Error, Critical})|
    ensures s.warnings == |set e | e in h && !e.hasError && e.severity == Warn|
  {
    hide Strongest, Latest, IsWindow, IsMin, First, Bounded;
    assert ErrorsOf(h) == set e | e in h && (e.hasError || e.severity in {Error, Critical});
    assert WarningsOf(h) == set e | e in h && !e.hasError && e.severity == Warn;
    EndMeans(s.endedAt, h);
  }

  lemma EndMeans(end: Option<nat>, h: set<RunEvent>)
    requires IsMax(end, EndsOf(h))
    ensures end.None? <==> forall e :: e in h && e.terminal ==> e.outcome.None? || e.outcome == Some(Unknown)
    ensures forall e :: e in h && e.terminal && e.outcome.Some? && e.outcome.value != Unknown ==>
      end.Some? && (if e.ended.Some? then e.ended.value else e.key.at) <= end.value
    ensures end.Some? ==>
      exists e :: e in h && e.terminal && e.outcome.Some? && end.value == if e.ended.Some? then e.ended.value else e.key.at
  {
    forall e | e in h && Ends(e) ensures End(e) in EndsOf(h) {
    }
    if end.Some? {
      var e :| e in h && Ends(e) && End(e) == end.value;
    }
  }

  /** Branch, job, service and environment come from the newest event that names one; duration and trigger from
      the newest terminal event that does. */
  lemma ValueIsNewest(s: Summary, h: set<RunEvent>, f: Field)
    requires Summarises(s, h) && f in {Branch, JobName, ServiceName, Environment, DurationMs, Trigger}
    ensures f !in s.values ==> forall e :: e in h ==> !Gives(e, f)
    ensures f in s.values ==> exists e :: e in h && Newest(e, h, f) && s.values[f] == e.values[f]
  {
    hide Strongest, IsMax, IsWindow, IsMin, First, Bounded;
    forall e | e in h && Gives(e, f) ensures Write(e.key, f, e.values[f]) in WritesOf(h) {
      GivesIsOffer(e, f, e.values[f]);
      assert Write(e.key, f, e.values[f]) in AllOffers(e);
    }
    hide AllOffers;
    if f in s.values {
      var w := Write(s.at[f], f, s.values[f]);
      assert w in WritesOf(h);
      var e :| e in h && w in AllOffers(e);
      OfferIsGiven(e, w);
      hide WritesOf;
      assert Newest(e, h, f);
    }
  }

  lemma GivesIsOffer(e: RunEvent, f: Field, v: Value)
    requires f in {Branch, JobName, ServiceName, Environment, DurationMs, Trigger} && Gives(e, f) && v == e.values[f]
    ensures Write(e.key, f, v) in AllOffers(e)
  {
    assert f in METADATA || f in TERMINAL_FIELDS;
  }

  lemma OfferIsGiven(e: RunEvent, w: Write)
    requires w in AllOffers(e)
    ensures Gives(e, w.field) && w.key == e.key && w.value == e.values[w.field]
  {
  }

  /** The event has something to say about the field. */
  predicate Gives(e: RunEvent, f: Field) {
    && f in e.values && e.values[f] != Null && e.values[f] != Text("")
    && (f in {DurationMs, Trigger} ==> e.terminal)
  }

  /** No event with something to say about the field is newer. */
  ghost predicate Newest(e: RunEvent, h: set<RunEvent>, f: Field) {
    Gives(e, f) && forall d :: d in h && Gives(d, f) ==> d.key == e.key || Less(d.key, e.key)
  }
}

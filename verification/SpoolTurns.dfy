/** What may happen to the spool between two critical sections of a replay, and what a replay did to each
    segment it listed. */
module SpoolTurns {
  import opened Keys
  import opened SpoolFiles

  /** Segments that each destination's drain accepted, in order. */
  type Logs = map<Destination, seq<File>>

  /** The shared state at one instant; `used` are the names given out so far, `evicted` the files evicted. */
  datatype Snap = Snap(files: seq<File>, active: set<Name>, used: Owners, evicted: seq<File>, accepted: Logs, places: Places)

  function Log(accepted: Logs, d: Destination): seq<File> {
    if d in accepted then accepted[d] else []
  }

  ghost predicate InFiles(l: Line, files: seq<File>) {
    exists f :: f in files && l in f.lines
  }

  lemma InFilesMore(l: Line, a: seq<File>, b: seq<File>)
    requires InFiles(l, a) && forall f :: f in a ==> f in b
    ensures InFiles(l, b)
  {
  }

  /** The lines counted as evicted are exactly those of evicted files. */
  ghost predicate EvictedOk(places: Places, evicted: seq<File>) {
    && (forall f, l :: f in evicted && l in f.lines ==> l in places && places[l] == Evicted)
    && (forall l :: l in places && places[l] == Evicted ==> InFiles(l, evicted))
  }

  /** The lines counted as drained are exactly those of segments that a drain accepted, unless evicted
      before the acceptance came back. */
  ghost predicate DrainedOk(places: Places, accepted: Logs) {
    AcceptedLeft(places, accepted) && DrainedLogged(places, accepted)
  }

  ghost predicate AcceptedLeft(places: Places, accepted: Logs) {
    forall d, f, l :: f in Log(accepted, d) && l in f.lines ==> l in places && (places[l] == Drained(d) || places[l] == Evicted)
  }

  ghost predicate DrainedLogged(places: Places, accepted: Logs) {
    forall l :: l in places && places[l].Drained? ==> InFiles(l, Log(accepted, places[l].drain))
  }

  ghost predicate LogsOk(places: Places, evicted: seq<File>, accepted: Logs) {
    EvictedOk(places, evicted) && DrainedOk(places, accepted)
  }

  lemma EvictLogs(files: seq<File>, places: Places, evicted: seq<File>, accepted: Logs, k: nat)
    requires Ledger(files, places) && LogsOk(places, evicted, accepted) && k < |files|
    ensures LogsOk(Moved(places, files[k].lines, Evicted), evicted + [files[k]], accepted)
  {
    LinesOnDisk(files, places, k);
    hide Ledger;
    EvictLog(places, evicted, files[k]);
    OthersDrained(places, accepted, files[k], Evicted);
  }

  lemma LinesOnDisk(files: seq<File>, places: Places, k: nat)
    requires Ledger(files, places) && k < |files|
    ensures forall l :: l in files[k].lines ==> l in places && places[l].OnDisk?
  {
  }

  lemma EvictLog(places: Places, evicted: seq<File>, f: File)
    requires EvictedOk(places, evicted) && forall l :: l in f.lines ==> l in places && places[l].OnDisk?
    ensures EvictedOk(Moved(places, f.lines, Evicted), evicted + [f])
  {
    var next := Moved(places, f.lines, Evicted);
    assert f in evicted + [f];
    forall l | l in next && next[l] == Evicted ensures InFiles(l, evicted + [f]) {
      if l !in f.lines { InFilesMore(l, evicted, evicted + [f]); }
    }
  }

  lemma OthersEvicted(places: Places, evicted: seq<File>, f: File, p: Place)
    requires EvictedOk(places, evicted) && p != Evicted && forall l :: l in f.lines ==> l in places && places[l].OnDisk?
    ensures EvictedOk(Moved(places, f.lines, p), evicted)
  {
  }

  lemma OthersDrained(places: Places, accepted: Logs, f: File, p: Place)
    requires DrainedOk(places, accepted) && !p.Drained? && forall l :: l in f.lines ==> l in places && places[l].OnDisk?
    ensures DrainedOk(Moved(places, f.lines, p), accepted)
  {
  }

  function WithLog(accepted: Logs, d: Destination, f: File): Logs {
    accepted[d := Log(accepted, d) + [f]]
  }

  lemma AcceptLogs(files: seq<File>, places: Places, evicted: seq<File>, accepted: Logs, k: nat, d: Destination)
    requires Ledger(files, places) && LogsOk(places, evicted, accepted) && k < |files|
    ensures LogsOk(Moved(places, files[k].lines, Drained(d)), evicted, WithLog(accepted, d, files[k]))
  {
    LinesOnDisk(files, places, k);
    hide Ledger;
    OthersEvicted(places, evicted, files[k], Drained(d));
    hide EvictedOk;
    AcceptLog(places, accepted, d, files[k]);
  }

  lemma AcceptLog(places: Places, accepted: Logs, d: Destination, f: File)
    requires DrainedOk(places, accepted) && forall l :: l in f.lines ==> l in places && places[l].OnDisk?
    ensures DrainedOk(Moved(places, f.lines, Drained(d)), WithLog(accepted, d, f))
  {
    var next := Moved(places, f.lines, Drained(d));
    LogsGrow(accepted, d, f);
    AcceptLeft(places, next, accepted, d, f);
    forall l | l in next && next[l].Drained? ensures InFiles(l, Log(WithLog(accepted, d, f), next[l].drain)) {
      if l !in f.lines {
        InFilesMore(l, Log(accepted, places[l].drain), Log(WithLog(accepted, d, f), places[l].drain));
      }
    }
  }

  lemma LogsGrow(accepted: Logs, d: Destination, f: File)
    ensures forall e, g :: g in Log(WithLog(accepted, d, f), e) <==> g in Log(accepted, e) || (e == d && g == f)
    ensures forall e :: Log(accepted, e) <= Log(WithLog(accepted, d, f), e)
  {
  }

  lemma AcceptLeft(places: Places, next: Places, accepted: Logs, d: Destination, f: File)
    requires AcceptedLeft(places, accepted)
    requires forall l :: l in places && !places[l].OnDisk? ==> l in next && next[l] == places[l]
    requires forall l :: l in f.lines ==> l in next && (next[l] == Drained(d) || next[l] == Evicted)
    ensures AcceptedLeft(next, WithLog(accepted, d, f))
  {
    LogsGrow(accepted, d, f);
    hide Log, WithLog;
  }

  /** The segment was evicted while the drain was accepting it. */
  lemma AcceptGone(places: Places, evicted: seq<File>, accepted: Logs, d: Destination, f: File)
    requires LogsOk(places, evicted, accepted) && EvictedAs(f, evicted)
    ensures LogsOk(places, evicted, WithLog(accepted, d, f))
  {
    LogsGrow(accepted, d, f);
    AcceptLeft(places, places, accepted, d, f);
    hide Log, WithLog;
    forall l | l in places && places[l].Drained? ensures InFiles(l, Log(WithLog(accepted, d, f), places[l].drain)) {
      InFilesMore(l, Log(accepted, places[l].drain), Log(WithLog(accepted, d, f), places[l].drain));
    }
  }

  lemma WriteLogs(places: Places, evicted: seq<File>, accepted: Logs, line: Line, name: Name)
    requires LogsOk(places, evicted, accepted) && line !in places
    ensures LogsOk(places[line := OnDisk(name)], evicted, accepted)
  {
  }

  // ---------------------------------------------------------------- lines move only with a cause

  ghost predicate Cause(l: Line, a: Snap, b: Snap)
    requires |a.evicted| <= |b.evicted| && l in a.places && l in b.places
    requires forall d :: |Log(a.accepted, d)| <= |Log(b.accepted, d)|
  {
    || b.places[l] == a.places[l]
    || (a.places[l].OnDisk? && b.places[l] == Evicted && InFiles(l, b.evicted[|a.evicted|..]))
    || (a.places[l].OnDisk? && b.places[l].Drained?
        && InFiles(l, Log(b.accepted, b.places[l].drain)[|Log(a.accepted, b.places[l].drain)|..]))
  }

  /** Accepted lines stay accounted for; what left the disk is in a file evicted or accepted since. */
  ghost predicate Causes(a: Snap, b: Snap) {
    && a.evicted <= b.evicted
    && (forall d :: Log(a.accepted, d) <= Log(b.accepted, d))
    && forall l :: l in a.places ==> l in b.places && Cause(l, a, b)
  }

  lemma CausesSelf(a: Snap, b: Snap)
    requires a.evicted == b.evicted && a.accepted == b.accepted
    requires forall l :: l in a.places ==> l in b.places && b.places[l] == a.places[l]
    ensures Causes(a, b)
  {
  }

  lemma CausesTrans(a: Snap, b: Snap, c: Snap)
    requires Causes(a, b) && Causes(b, c)
    ensures Causes(a, c)
  {
    forall l | l in a.places ensures l in c.places && Cause(l, a, c) {
      assert Cause(l, a, b) && Cause(l, b, c);
      if c.places[l] == Evicted && b.places[l] == Evicted && a.places[l] != Evicted {
        InFilesMore(l, b.evicted[|a.evicted|..], c.evicted[|a.evicted|..]);
      } else if c.places[l] == Evicted && b.places[l] != Evicted {
        InFilesMore(l, c.evicted[|b.evicted|..], c.evicted[|a.evicted|..]);
      } else if c.places[l].Drained? && b.places[l] != a.places[l] {
        var d := c.places[l].drain;
        InFilesMore(l, Log(b.accepted, d)[|Log(a.accepted, d)|..], Log(c.accepted, d)[|Log(a.accepted, d)|..]);
      } else if c.places[l].Drained? && c.places[l] != b.places[l] {
        var d := c.places[l].drain;
        InFilesMore(l, Log(c.accepted, d)[|Log(b.accepted, d)|..], Log(c.accepted, d)[|Log(a.accepted, d)|..]);
      }
    }
  }

  // ---------------------------------------------------------------- a destination's closed segments

  /** The file was evicted, as a segment or after it had been set aside. */
  ghost predicate EvictedAs(f: File, evicted: seq<File>) {
    exists g :: g in evicted && g.name == f.name && g.lines == f.lines
  }

  ghost predicate Somewhere(f: File, s: Snap, since: nat)
    requires since <= |s.evicted|
  {
    f in s.files || EvictedAs(f, s.evicted[since..])
  }

  /** A file that nobody but its own replay will change: what it holds is what a reader has seen. */
  ghost predicate Sealed(f: File, s: Snap) {
    f.name in s.used && f.name !in s.active && forall g :: g in s.files && g.name == f.name ==> g == f
  }

  ghost predicate Absent(n: Name, s: Snap) {
    n in s.used && n !in s.active && forall g :: g in s.files ==> g.name != n
  }

  ghost predicate From(g: File, files: seq<File>, d: Destination) {
    exists h :: h in files && h.name == g.name && h.owner == g.owner && (g.owner == d ==> g == h)
  }

  ghost predicate Extends(a: Owners, b: Owners) {
    forall n :: n in a ==> n in b && b[n] == a[n]
  }

  ghost predicate Stays(d: Destination, except: set<Name>, a: Snap, b: Snap)
    requires |a.evicted| <= |b.evicted|
  {
    forall f :: f in a.files && f.owner == d && f.name !in a.active && f.name !in except ==> Somewhere(f, b, |a.evicted|)
  }

  ghost predicate NothingNew(d: Destination, except: set<Name>, a: Snap, b: Snap) {
    forall g :: g in b.files && g.name in a.used && g.name !in a.active && g.name !in except ==> From(g, a.files, d)
  }

  /** From `a` to `b` the closed files of `d` outside `except` are kept as they were, or evicted. */
  ghost predicate Steady(d: Destination, except: set<Name>, a: Snap, b: Snap) {
    && Extends(a.used, b.used) && a.evicted <= b.evicted
    && (forall n :: n in a.used && n !in a.active ==> n !in b.active)
    && Stays(d, except, a, b)
    && NothingNew(d, except, a, b)
  }

  lemma SteadySelf(d: Destination, a: Snap, b: Snap)
    requires a.files == b.files && a.evicted == b.evicted && Extends(a.used, b.used)
    requires forall n :: n in a.used && n in b.active ==> n in a.active
    ensures Steady(d, {}, a, b)
  {
  }

  lemma SteadyTrans(d: Destination, x: set<Name>, y: set<Name>, a: Snap, b: Snap, c: Snap)
    requires Steady(d, x, a, b) && Steady(d, y, b, c) && UsedOk(a.files, a.active, a.used)
    ensures Steady(d, x + y, a, c)
  {
    forall f | f in a.files && f.owner == d && f.name !in a.active && f.name !in x + y ensures Somewhere(f, c, |a.evicted|) {
      assert Somewhere(f, b, |a.evicted|);
      if f !in b.files {
        EvictedMore(f, b.evicted[|a.evicted|..], c.evicted[|a.evicted|..]);
      } else {
        assert Somewhere(f, c, |b.evicted|);
        if f !in c.files {
          EvictedMore(f, c.evicted[|b.evicted|..], c.evicted[|a.evicted|..]);
        }
      }
    }
    forall g | g in c.files && g.name in a.used && g.name !in a.active && g.name !in x + y ensures From(g, a.files, d) {
      assert From(g, b.files, d);
      var h :| h in b.files && h.name == g.name && h.owner == g.owner && (g.owner == d ==> g == h);
      assert From(h, a.files, d);
    }
  }

  lemma EvictedMore(f: File, a: seq<File>, b: seq<File>)
    requires EvictedAs(f, a) && forall g :: g in a ==> g in b
    ensures EvictedAs(f, b)
  {
  }

  lemma SealedStays(d: Destination, except: set<Name>, a: Snap, b: Snap, f: File)
    requires Steady(d, except, a, b) && Sealed(f, a) && f.owner == d && f.name !in except
    ensures Sealed(f, b)
  {
    forall g | g in b.files && g.name == f.name ensures g == f {
      assert From(g, a.files, d);
    }
  }

  lemma AbsentStays(d: Destination, except: set<Name>, a: Snap, b: Snap, n: Name)
    requires Steady(d, except, a, b) && Absent(n, a) && n !in except
    ensures Absent(n, b)
  {
    assert forall g :: g in b.files && g.name == n ==> From(g, a.files, d);
  }

  lemma SomewhereStays(d: Destination, except: set<Name>, a: Snap, b: Snap, f: File, since: nat)
    requires Steady(d, except, a, b) && since <= |a.evicted| && Somewhere(f, a, since)
    requires f.owner == d && f.name !in a.active && f.name !in except
    ensures Somewhere(f, b, since)
  {
    if f in a.files {
      assert Somewhere(f, b, |a.evicted|);
      if f !in b.files { EvictedMore(f, b.evicted[|a.evicted|..], b.evicted[since..]); }
    } else {
      EvictedMore(f, a.evicted[since..], b.evicted[since..]);
    }
  }

  /** What other threads may do while `d` is being replayed. */
  ghost predicate Between(d: Destination, a: Snap, b: Snap) {
    && Steady(d, {}, a, b)
    && Causes(a, b)
    && Log(b.accepted, d) == Log(a.accepted, d)
    && UsedOk(b.files, b.active, b.used)
  }

  lemma BetweenSelf(d: Destination, a: Snap)
    requires UsedOk(a.files, a.active, a.used)
    ensures Between(d, a, a)
  {
    SteadySelf(d, a, a);
    CausesSelf(a, a);
  }

  lemma BetweenTrans(d: Destination, a: Snap, b: Snap, c: Snap)
    requires Between(d, a, b) && Between(d, b, c) && UsedOk(a.files, a.active, a.used)
    ensures Between(d, a, c)
  {
    var none: set<Name> := {};
    SteadyTrans(d, none, none, a, b, c);
    assert none + none == none;
    CausesTrans(a, b, c);
  }

  /** Closing segments, or nothing at all. */
  lemma Sealing(d: Destination, a: Snap, b: Snap)
    requires b == a.(active := b.active) && b.active <= a.active && UsedOk(a.files, a.active, a.used)
    ensures Between(d, a, b)
  {
    SteadySelf(d, a, b);
    CausesSelf(a, b);
  }

  /** Only the file `f` changed, by removal or renaming. */
  ghost predicate Only(f: File, a: Snap, b: Snap) {
    && a.used == b.used && a.active == b.active && a.evicted == b.evicted
    && f.name !in a.active
    && (forall g :: g in a.files && g.name == f.name ==> g == f)
    && (forall g: File :: g.name != f.name ==> (g in b.files <==> g in a.files))
    && (forall g: File :: g in b.files && g.name == f.name ==> f in a.files && g.owner == f.owner)
  }

  lemma OnlySteady(f: File, a: Snap, b: Snap)
    requires Only(f, a, b)
    ensures Steady(f.owner, {f.name}, a, b)
    ensures forall d :: d != f.owner ==> Steady(d, {}, a, b)
  {
    forall d | d != f.owner ensures NothingNew(d, {}, a, b) {
      forall g | g in b.files && g.name in a.used && g.name !in a.active ensures From(g, a.files, d) {
        if g.name == f.name {
          assert f in a.files && f.owner != d;
        } else {
          assert g in a.files;
        }
      }
    }
  }

  lemma OtherFile(d: Destination, f: File, a: Snap, b: Snap)
    requires Only(f, a, b) && d != f.owner && Causes(a, b) && UsedOk(b.files, b.active, b.used)
    requires Log(b.accepted, d) == Log(a.accepted, d)
    ensures Between(d, a, b)
  {
    OnlySteady(f, a, b);
  }

  // ---------------------------------------------------------------- what a replay did

  datatype Verdict = Accepted | Permanent | Transient

  /** What became of one listed segment: evicted before it was read, open again for writing, undecodable,
      or offered to the drain. */
  datatype Fate = Missing | Reopened | Undecodable(file: File) | Offered(file: File, verdict: Verdict)

  ghost predicate Read(f: File, n: Name, d: Destination, start: Snap) {
    && f.name == n && f.owner == d && f.kind.Segment?
    && (n in start.used ==> f in start.files)
  }

  /** The fate is what the rules give the segment; only a segment opened since the start was skipped as
      open, only an evicted one was missing. */
  ghost predicate Justified(x: Fate, n: Name, d: Destination, wellFormed: seq<Line> -> bool, verdict: Name -> Verdict, start: Snap) {
    match x
    case Missing => true
    case Reopened => n !in start.used
    case Undecodable(f) => Read(f, n, d, start) && !wellFormed(f.lines)
    case Offered(f, v) => Read(f, n, d, start) && wellFormed(f.lines) && v == verdict(n)
  }

  ghost predicate Kept(f: File, start: Snap, s: Snap) {
    Sealed(f, s) && |start.evicted| <= |s.evicted| && Somewhere(f, s, |start.evicted|)
  }

  /** What the fate means for the file, from then on. */
  ghost predicate Settled(x: Fate, n: Name, d: Destination, start: Snap, s: Snap) {
    match x
    case Missing =>
      |start.evicted| <= |s.evicted|
      && forall f :: f in start.files && f.owner == d && f.name == n ==> EvictedAs(f, s.evicted[|start.evicted|..])
    case Reopened => true
    case Undecodable(f) => f.name == n && f.owner == d && Kept(f.(kind := Corrupt), start, s)
    case Offered(f, Accepted) => Absent(n, s)
    case Offered(f, Permanent) => f.name == n && f.owner == d && Kept(f.(kind := Dead), start, s)
    case Offered(f, Transient) => f.name == n && f.owner == d && Kept(f, start, s)
  }

  lemma KeptStays(d: Destination, except: set<Name>, start: Snap, a: Snap, b: Snap, f: File)
    requires Steady(d, except, a, b) && Kept(f, start, a) && f.owner == d && f.name !in except
    ensures Kept(f, start, b)
  {
    SealedStays(d, except, a, b, f);
    SomewhereStays(d, except, a, b, f, |start.evicted|);
  }

  lemma SettledStays(x: Fate, n: Name, d: Destination, except: set<Name>, start: Snap, a: Snap, b: Snap)
    requires Settled(x, n, d, start, a) && Steady(d, except, a, b) && n !in except
    ensures Settled(x, n, d, start, b)
  {
    match x
    case Missing =>
      forall f | f in start.files && f.owner == d && f.name == n ensures EvictedAs(f, b.evicted[|start.evicted|..]) {
        EvictedMore(f, a.evicted[|start.evicted|..], b.evicted[|start.evicted|..]);
      }
    case Reopened =>
    case Undecodable(f) => KeptStays(d, except, start, a, b, f.(kind := Corrupt));
    case Offered(f, Accepted) => AbsentStays(d, except, a, b, n);
    case Offered(f, Permanent) => KeptStays(d, except, start, a, b, f.(kind := Dead));
    case Offered(f, Transient) => KeptStays(d, except, start, a, b, f);
  }

  /** Fates so far, in the order of the listed names. */
  ghost predicate Traced(d: Destination, listed: seq<Name>, fates: seq<Fate>, wellFormed: seq<Line> -> bool,
                         verdict: Name -> Verdict, start: Snap, s: Snap)
  {
    && |fates| <= |listed|
    && forall k :: 0 <= k < |fates| ==>
         Justified(fates[k], listed[k], d, wellFormed, verdict, start) && Settled(fates[k], listed[k], d, start, s)
  }

  ghost predicate Increasing(names: seq<Name>) {
    forall i, j :: 0 <= i < j < |names| ==> names[i] < names[j]
  }

  lemma TracedStays(d: Destination, listed: seq<Name>, fates: seq<Fate>, wellFormed: seq<Line> -> bool,
                    verdict: Name -> Verdict, except: set<Name>, start: Snap, a: Snap, b: Snap)
    requires Traced(d, listed, fates, wellFormed, verdict, start, a) && Steady(d, except, a, b)
    requires forall k :: 0 <= k < |fates| ==> listed[k] !in except
    ensures Traced(d, listed, fates, wellFormed, verdict, start, b)
  {
    hide Steady, Justified, Settled;
    forall k | 0 <= k < |fates| ensures Settled(fates[k], listed[k], d, start, b) {
      SettledStays(fates[k], listed[k], d, except, start, a, b);
    }
  }

  predicate IsTransient(x: Fate) {
    x.Offered? && x.verdict.Transient?
  }

  /** The replay moved or removed the file. */
  predicate Touched(x: Fate) {
    x.Undecodable? || (x.Offered? && !x.verdict.Transient?)
  }

  ghost function TouchedNames(listed: seq<Name>, fates: seq<Fate>): set<Name>
    requires |fates| <= |listed|
  {
    set k | 0 <= k < |fates| && Touched(fates[k]) :: listed[k]
  }

  function AcceptedOf(fates: seq<Fate>): seq<File> {
    if fates == [] then []
    else
      var n := |fates| - 1;
      AcceptedOf(fates[..n]) + if fates[n].Offered? && fates[n].verdict.Accepted? then [fates[n].file] else []
  }

  function LinesIn(files: seq<File>): nat {
    if files == [] then 0 else LinesIn(files[..|files| - 1]) + |files[|files| - 1].lines|
  }

  /** Events replayed: `len(lines)` over the accepted segments. */
  function Replayed(fates: seq<Fate>): nat {
    LinesIn(AcceptedOf(fates))
  }

  lemma AcceptedWith(fates: seq<Fate>, x: Fate)
    ensures AcceptedOf(fates + [x]) == AcceptedOf(fates) + if x.Offered? && x.verdict.Accepted? then [x.file] else []
    ensures Replayed(fates + [x]) == Replayed(fates) + if x.Offered? && x.verdict.Accepted? then |x.file.lines| else 0
  {
    var out := fates + [x];
    assert out[..|fates|] == fates && out[|fates|] == x;
    assert AcceptedOf(out) == AcceptedOf(fates) + if x.Offered? && x.verdict.Accepted? then [x.file] else [];
    assert AcceptedOf(fates) + [] == AcceptedOf(fates);
    if x.Offered? && x.verdict.Accepted? {
      var front := AcceptedOf(fates);
      assert (front + [x.file])[..|front|] == front;
    }
  }

  predicate Enough(maxEvents: Option<nat>, fates: seq<Fate>) {
    maxEvents.Some? && Replayed(fates) >= maxEvents.value
  }

  /** It went on while the last offer was not a transient failure and the bound was not reached. */
  ghost predicate WentOn(fates: seq<Fate>, maxEvents: Option<nat>) {
    forall k :: 0 <= k < |fates| ==> !Enough(maxEvents, fates[..k]) && (k < |fates| - 1 ==> !IsTransient(fates[k]))
  }

  /** It stopped early for one of these reasons only. */
  ghost predicate Stopped(listed: seq<Name>, fates: seq<Fate>, maxEvents: Option<nat>) {
    |fates| < |listed| ==> Enough(maxEvents, fates) || (fates != [] && IsTransient(fates[|fates| - 1]))
  }

  lemma WentOnWith(fates: seq<Fate>, x: Fate, maxEvents: Option<nat>)
    requires WentOn(fates, maxEvents) && !Enough(maxEvents, fates)
    requires fates != [] ==> !IsTransient(fates[|fates| - 1])
    ensures WentOn(fates + [x], maxEvents)
  {
    hide Enough;
    forall k | 0 <= k < |fates + [x]|
      ensures !Enough(maxEvents, (fates + [x])[..k]) && (k < |fates + [x]| - 1 ==> !IsTransient((fates + [x])[k]))
    {
      if k < |fates| {
        assert (fates + [x])[..k] == fates[..k];
      } else {
        assert (fates + [x])[..k] == fates;
      }
    }
  }

  /** The segments found by the listing: every closed segment of the destination, unless evicted by then. */
  ghost predicate Listed(d: Destination, listed: seq<Name>, start: Snap, s: Snap) {
    && Increasing(listed)
    && |start.evicted| <= |s.evicted|
    && (forall f :: f in start.files && f.owner == d && f.kind.Segment? ==>
          f.name in listed || EvictedAs(f, s.evicted[|start.evicted|..]))
    && (forall n :: n in listed && n in start.used ==> IsSegment(n, d, start.files))
  }

  ghost predicate IsSegment(n: Name, d: Destination, files: seq<File>) {
    exists f :: f in files && f.name == n && f.owner == d && f.kind.Segment?
  }

  lemma ListedStays(d: Destination, listed: seq<Name>, start: Snap, a: Snap, b: Snap)
    requires Listed(d, listed, start, a) && a.evicted <= b.evicted
    ensures Listed(d, listed, start, b)
  {
    forall f | f in start.files && f.owner == d && f.kind.Segment? && f.name !in listed
      ensures EvictedAs(f, b.evicted[|start.evicted|..])
    {
      EvictedMore(f, a.evicted[|start.evicted|..], b.evicted[|start.evicted|..]);
    }
  }

  /** The listing, taken after `start`: names of the destination only. */
  lemma ListingHolds(d: Destination, listed: seq<Name>, start: Snap, s: Snap)
    requires Increasing(listed) && forall n :: n in listed <==> IsSegment(n, d, s.files)
    requires Between(d, start, s) && ClosedAt(d, start)
    ensures Listed(d, listed, start, s) && forall n :: n in listed ==> n in s.used && s.used[n] == d
  {
    forall f | f in start.files && f.owner == d && f.kind.Segment? ensures f.name in listed || EvictedAs(f, s.evicted[|start.evicted|..]) {
      assert Somewhere(f, s, |start.evicted|);
      if f in s.files { assert IsSegment(f.name, d, s.files); }
    }
    forall n | n in listed ensures n in s.used && s.used[n] == d && (n in start.used ==> IsSegment(n, d, start.files)) {
      var g :| g in s.files && g.name == n && g.owner == d && g.kind.Segment?;
      if n in start.used {
        assert From(g, start.files, d);
      }
    }
  }

  /** None of the destination's segments is open, and names belong to one destination. */
  ghost predicate ClosedAt(d: Destination, start: Snap) {
    && UsedOk(start.files, start.active, start.used)
    && forall n :: n in start.active ==> start.used[n] != d
  }

  /** Until the replay comes to a segment, it is what it was at the start, or evicted. */
  ghost predicate Reached(n: Name, d: Destination, start: Snap, s: Snap) {
    && ClosedAt(d, start) && UsedOk(s.files, s.active, s.used)
    && |start.evicted| <= |s.evicted| && Extends(start.used, s.used)
    && (forall m :: m in start.used && m !in start.active ==> m !in s.active)
    && n in s.used && s.used[n] == d
    && (forall f :: f in start.files && f.owner == d && f.name == n ==> Somewhere(f, s, |start.evicted|))
    && (forall f :: f in s.files && f.name == n && n in start.used ==> f in start.files)
  }

  lemma ReachedStays(n: Name, d: Destination, start: Snap, a: Snap, b: Snap)
    requires Reached(n, d, start, a) && Between(d, a, b)
    ensures Reached(n, d, start, b)
  {
    forall f | f in start.files && f.owner == d && f.name == n ensures Somewhere(f, b, |start.evicted|) {
      SomewhereStays(d, {}, a, b, f, |start.evicted|);
    }
    forall g | g in b.files && g.name == n && n in start.used ensures g in start.files {
      assert From(g, a.files, d);
    }
  }

  lemma ReachedFrom(n: Name, d: Destination, except: set<Name>, start: Snap, s: Snap)
    requires Steady(d, except, start, s) && n !in except && ClosedAt(d, start) && UsedOk(s.files, s.active, s.used)
    requires n in s.used && s.used[n] == d
    ensures Reached(n, d, start, s)
  {
    forall g | g in s.files && g.name == n && n in start.used ensures g in start.files {
      assert From(g, start.files, d);
    }
  }

  /** Settling one segment: from `a` to `b` the replay and other threads did this. */
  ghost predicate Step(x: Fate, n: Name, d: Destination, wellFormed: seq<Line> -> bool, verdict: Name -> Verdict,
                       start: Snap, a: Snap, b: Snap)
  {
    && Justified(x, n, d, wellFormed, verdict, start) && Settled(x, n, d, start, b)
    && Steady(d, if Touched(x) then {n} else {}, a, b)
    && Causes(a, b)
    && Log(b.accepted, d) == Log(a.accepted, d) + (if x.Offered? && x.verdict.Accepted? then [x.file] else [])
    && UsedOk(b.files, b.active, b.used)
  }

  /** The segment is left alone. */
  lemma StepLeaves(x: Fate, n: Name, d: Destination, wellFormed: seq<Line> -> bool, verdict: Name -> Verdict,
                   start: Snap, a: Snap, b: Snap)
    requires Between(d, a, b) && Justified(x, n, d, wellFormed, verdict, start) && Settled(x, n, d, start, b) && !Touched(x)
    ensures Step(x, n, d, wellFormed, verdict, start, a, b)
  {
  }

  lemma StepTouches(x: Fate, n: Name, d: Destination, wellFormed: seq<Line> -> bool, verdict: Name -> Verdict,
                    start: Snap, a: Snap, b: Snap, c: Snap, f: File)
    requires Between(d, a, b) && Justified(x, n, d, wellFormed, verdict, start) && Settled(x, n, d, start, c) && Touched(x)
    requires f.name == n && f.owner == d && Only(f, b, c) && Causes(b, c)
    requires Log(c.accepted, d) == Log(b.accepted, d) + (if x.Offered? && x.verdict.Accepted? then [x.file] else [])
    requires UsedOk(a.files, a.active, a.used) && UsedOk(c.files, c.active, c.used)
    ensures Step(x, n, d, wellFormed, verdict, start, a, c)
  {
    OnlySteady(f, b, c);
    SteadyTrans(d, {}, {n}, a, b, c);
    assert {} + {n} == {n};
    CausesTrans(a, b, c);
    hide Steady, Causes, Justified, Settled, Only;
  }

  lemma SetAsideKept(f: File, kind: Kind, start: Snap, a: Snap, b: Snap)
    requires Kept(f, start, a) && Only(f, a, b)
    requires forall g :: g in b.files <==> (g in a.files && g.name != f.name) || (f in a.files && g == f.(kind := kind))
    ensures Kept(f.(kind := kind), start, b)
  {
  }

  lemma MissingSettled(n: Name, d: Destination, start: Snap, s: Snap)
    requires Reached(n, d, start, s)
    requires forall f :: f in s.files && f.name == n && f.kind.Segment? ==> n in s.active
    requires forall f :: f in start.files && f.owner == d && f.name == n ==> f.kind.Segment?
    ensures Settled(Missing, n, d, start, s)
  {
    forall f | f in start.files && f.owner == d && f.name == n ensures EvictedAs(f, s.evicted[|start.evicted|..]) {
      assert Somewhere(f, s, |start.evicted|);
    }
  }

  /** What a replay has done so far. */
  ghost predicate Progress(d: Destination, listed: seq<Name>, fates: seq<Fate>, wellFormed: seq<Line> -> bool,
                           verdict: Name -> Verdict, start: Snap, s: Snap)
  {
    && Traced(d, listed, fates, wellFormed, verdict, start, s)
    && Listed(d, listed, start, s)
    && Steady(d, TouchedNames(listed, fates), start, s)
    && Causes(start, s)
    && Log(s.accepted, d) == Log(start.accepted, d) + AcceptedOf(fates)
  }

  lemma ProgressStarts(d: Destination, listed: seq<Name>, wellFormed: seq<Line> -> bool, verdict: Name -> Verdict, start: Snap, s: Snap)
    requires Listed(d, listed, start, s) && Between(d, start, s)
    ensures Progress(d, listed, [], wellFormed, verdict, start, s)
  {
    assert TouchedNames(listed, []) == {};
  }

  lemma ProgressStep(d: Destination, listed: seq<Name>, fates: seq<Fate>, wellFormed: seq<Line> -> bool,
                     verdict: Name -> Verdict, start: Snap, a: Snap, b: Snap, x: Fate)
    requires Progress(d, listed, fates, wellFormed, verdict, start, a) && |fates| < |listed|
    requires Step(x, listed[|fates|], d, wellFormed, verdict, start, a, b)
    requires UsedOk(start.files, start.active, start.used)
    ensures Progress(d, listed, fates + [x], wellFormed, verdict, start, b)
  {
    var n := listed[|fates|];
    var own: set<Name> := if Touched(x) then {n} else {};
    assert a.evicted <= b.evicted;
    ListedStays(d, listed, start, a, b);
    assert forall k :: 0 <= k < |fates| ==> listed[k] !in own;
    hide Steady, Causes, Listed, Justified, Settled, TouchedNames, AcceptedOf, UsedOk;
    TouchedWith(listed, fates, x);
    SteadyTrans(d, TouchedNames(listed, fates), own, start, a, b);
    CausesTrans(start, a, b);
    AcceptedWith(fates, x);
    TracedStays(d, listed, fates, wellFormed, verdict, own, start, a, b);
    TracedWith(d, listed, fates, wellFormed, verdict, start, b, x);
    hide Traced, Touched;
  }

  lemma TracedWith(d: Destination, listed: seq<Name>, fates: seq<Fate>, wellFormed: seq<Line> -> bool,
                   verdict: Name -> Verdict, start: Snap, s: Snap, x: Fate)
    requires Traced(d, listed, fates, wellFormed, verdict, start, s) && |fates| < |listed|
    requires Justified(x, listed[|fates|], d, wellFormed, verdict, start) && Settled(x, listed[|fates|], d, start, s)
    ensures Traced(d, listed, fates + [x], wellFormed, verdict, start, s)
  {
    hide Justified, Settled;
  }

  lemma TouchedWith(listed: seq<Name>, fates: seq<Fate>, x: Fate)
    requires |fates| < |listed|
    ensures TouchedNames(listed, fates + [x])
         == TouchedNames(listed, fates) + if Touched(x) then {listed[|fates|]} else {}
  {
    var all, some := TouchedNames(listed, fates + [x]), TouchedNames(listed, fates);
    forall n | n in all ensures n in some || (Touched(x) && n == listed[|fates|]) {
      var k :| 0 <= k < |fates + [x]| && Touched((fates + [x])[k]) && listed[k] == n;
      if k < |fates| { assert Touched(fates[k]); }
    }
    forall n | n in some ensures n in all {
      var k :| 0 <= k < |fates| && Touched(fates[k]) && listed[k] == n;
      assert (fates + [x])[k] == fates[k];
    }
    assert (fates + [x])[|fates|] == x;
  }

  /** What a replay leaves of one of the destination's files when nothing else ran. */
  ghost predicate Outcome(f: File, settled: seq<Name>, wellFormed: seq<Line> -> bool, verdict: Name -> Verdict, files: seq<File>) {
    if !f.kind.Segment? || f.name !in settled then f in files
    else if !wellFormed(f.lines) then f.(kind := Corrupt) in files
    else match verdict(f.name)
         case Accepted => forall g :: g in files ==> g.name != f.name
         case Permanent => f.(kind := Dead) in files
         case Transient => f in files
  }

  ghost predicate Alone(d: Destination, listed: seq<Name>, fates: seq<Fate>, wellFormed: seq<Line> -> bool, verdict: Name -> Verdict,
                        start: Snap, s: Snap)
  {
    && |fates| <= |listed|
    && (forall n :: n in listed <==> IsSegment(n, d, start.files))
    && (forall k :: 0 <= k < |fates| ==> fates[k].Undecodable? || fates[k].Offered?)
    && (forall f :: f in start.files && f.owner == d ==> Outcome(f, listed[..|fates|], wellFormed, verdict, s.files))
  }

  /** A replay that nobody interrupts lists exactly the destination's closed segments and treats each one up
      to where it stopped by the rules: no segment is skipped, and everything else stays as it was. */
  lemma ReplayAlone(d: Destination, listed: seq<Name>, fates: seq<Fate>, wellFormed: seq<Line> -> bool, verdict: Name -> Verdict,
                    start: Snap, s: Snap)
    requires Traced(d, listed, fates, wellFormed, verdict, start, s) && Listed(d, listed, start, s)
    requires Steady(d, TouchedNames(listed, fates), start, s)
    requires Sorted(start.files) && UsedOk(start.files, start.active, start.used)
    requires forall f :: f in start.files && f.owner == d ==> f.name !in start.active
    requires s.evicted == start.evicted && forall n :: n in listed ==> n in start.used
    ensures Alone(d, listed, fates, wellFormed, verdict, start, s)
  {
    forall k | 0 <= k < |fates| ensures fates[k].Undecodable? || fates[k].Offered? {
      FateAlone(d, listed, fates, wellFormed, verdict, start, s, k);
    }
    forall f | f in start.files && f.owner == d ensures Outcome(f, listed[..|fates|], wellFormed, verdict, s.files) {
      OutcomeAlone(d, listed, fates, wellFormed, verdict, start, s, f);
    }
  }

  lemma FateAlone(d: Destination, listed: seq<Name>, fates: seq<Fate>, wellFormed: seq<Line> -> bool, verdict: Name -> Verdict,
                  start: Snap, s: Snap, k: nat)
    requires Traced(d, listed, fates, wellFormed, verdict, start, s) && Listed(d, listed, start, s)
    requires s.evicted == start.evicted && (forall n :: n in listed ==> n in start.used) && k < |fates|
    ensures fates[k].Undecodable? || fates[k].Offered?
  {
    hide Kept;
    assert Justified(fates[k], listed[k], d, wellFormed, verdict, start) && Settled(fates[k], listed[k], d, start, s);
    assert listed[k] in listed;
    assert IsSegment(listed[k], d, start.files);
  }

  lemma OutcomeAlone(d: Destination, listed: seq<Name>, fates: seq<Fate>, wellFormed: seq<Line> -> bool, verdict: Name -> Verdict,
                     start: Snap, s: Snap, f: File)
    requires Traced(d, listed, fates, wellFormed, verdict, start, s) && Listed(d, listed, start, s)
    requires Steady(d, TouchedNames(listed, fates), start, s)
    requires Sorted(start.files) && f in start.files && f.owner == d && f.name !in start.active
    requires s.evicted == start.evicted && forall n :: n in listed ==> n in start.used
    ensures Outcome(f, listed[..|fates|], wellFormed, verdict, s.files)
  {
    if f.kind.Segment? && f.name in listed[..|fates|] {
      var k :| 0 <= k < |fates| && listed[k] == f.name;
      FateAlone(d, listed, fates, wellFormed, verdict, start, s, k);
      assert Justified(fates[k], listed[k], d, wellFormed, verdict, start) && Settled(fates[k], listed[k], d, start, s);
      assert listed[k] in listed;
      OneName(start.files, fates[k].file, f);
      NotEvicted(s, |start.evicted|);
      hide Steady, Sorted, Listed, Traced;
    } else {
      assert f.name !in TouchedNames(listed, fates) by { NotTouched(d, listed, fates, start, s, f); }
      NotEvicted(s, |start.evicted|);
      assert Somewhere(f, s, |start.evicted|);
    }
  }

  lemma NotTouched(d: Destination, listed: seq<Name>, fates: seq<Fate>, start: Snap, s: Snap, f: File)
    requires Listed(d, listed, start, s) && |fates| <= |listed| && Sorted(start.files)
    requires f in start.files && (!f.kind.Segment? || f.name !in listed[..|fates|])
    requires forall n :: n in listed ==> n in start.used
    ensures f.name !in TouchedNames(listed, fates)
  {
    if f.name in TouchedNames(listed, fates) {
      var k :| 0 <= k < |fates| && Touched(fates[k]) && listed[k] == f.name;
      assert listed[..|fates|][k] == f.name;
      assert listed[k] in listed;
      var g :| g in start.files && g.name == listed[k] && g.owner == d && g.kind.Segment?;
      OneName(start.files, f, g);
    }
  }

  lemma NotEvicted(s: Snap, since: nat)
    requires since == |s.evicted|
    ensures forall f :: !EvictedAs(f, s.evicted[since..])
  {
  }

  lemma OneName(files: seq<File>, f: File, g: File)
    requires Sorted(files) && f in files && g in files && f.name == g.name
    ensures f == g
  {
    var i :| 0 <= i < |files| && files[i] == f;
    var j :| 0 <= j < |files| && files[j] == g;
  }

  /** All lines of a list of segments. */
  function Lines(files: seq<File>): seq<Line> {
    if files == [] then [] else Lines(files[..|files| - 1]) + files[|files| - 1].lines
  }

  /** A replay counts the lines of the segments that were accepted. */
  lemma {:induction false} LinesCounted(files: seq<File>)
    ensures LinesIn(files) == |Lines(files)|
  {
    if files != [] {
      LinesCounted(files[..|files| - 1]);
    }
  }
}

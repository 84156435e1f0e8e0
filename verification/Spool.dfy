/** The critical-event spool: destinations that share one directory, one byte budget and one lock.

    `Append`, `Close`, `Accept` and `Quarantine` are the critical sections.  `Replay` takes the lock only for
    some of its steps; between them any sequence of other threads' critical sections runs.
 */
module Spool {
  import opened Keys
  import opened SpoolFiles
  import opened SpoolEviction
  import opened SpoolTurns

  /** A critical section of another thread: an append, or a step of another destination's replay. */
  datatype Turn =
    | AppendTurn(d: Destination, line: Line, name: Name, writable: bool)
    | SealTurn(d: Destination)
    | AcceptTurn(name: Name)
    | QuarantineTurn(name: Name, kind: Kind)

  /** From `from` on, the script appends new lines, and the segment names it would use are new. */
  ghost predicate Fresh(script: seq<Turn>, from: nat, used: Owners, places: Places) {
    && (forall i :: from <= i < |script| && script[i].AppendTurn? ==> script[i].name !in used && script[i].line !in places)
    && (forall i, j :: from <= i < j < |script| && script[i].AppendTurn? && script[j].AppendTurn? ==>
          script[i].name != script[j].name && script[i].line != script[j].line)
  }

  lemma FreshHead(script: seq<Turn>, from: nat, used: Owners, places: Places)
    requires Fresh(script, from, used, places) && from < |script|
    ensures script[from].AppendTurn? ==> script[from].name !in used && script[from].line !in places
  {
  }

  lemma FreshAfter(script: seq<Turn>, from: nat, used: Owners, places: Places, used1: Owners, places1: Places)
    requires Fresh(script, from, used, places) && from < |script|
    requires var turn := script[from];
      if turn.AppendTurn? then used1.Keys <= used.Keys + {turn.name} && places1.Keys <= places.Keys + {turn.line}
      else used1 == used && places1.Keys == places.Keys
    ensures Fresh(script, from + 1, used1, places1)
  {
  }

  ghost predicate NamesGiven(before: Owners, after: Owners, d: Destination, name: Name) {
    after == before || after == before[name := d]
  }

  /** An append opens a segment when there is none or the line does not fit in it. */
  predicate Rolls(current: map<Destination, Name>, currentSize: map<Destination, nat>, d: Destination, size: nat, limit: nat) {
    d !in current || d !in currentSize || currentSize[d] + size > limit
  }

  function NextActive(current: map<Destination, Name>, active: set<Name>, d: Destination, rolls: bool, name: Name): set<Name> {
    if !rolls then active else (if d in current then active - {current[d]} else active) + {name}
  }

  /** What the file of that name holds. */
  function LinesOf(files: seq<File>, name: Name): seq<Line> {
    if files == [] then []
    else
      var n := |files| - 1;
      if files[n].name == name then files[n].lines else LinesOf(files[..n], name)
  }

  lemma {:induction false} LinesOfFile(files: seq<File>, f: File)
    requires Sorted(files) && f in files
    ensures LinesOf(files, f.name) == f.lines
  {
    var n := |files| - 1;
    var i :| 0 <= i < |files| && files[i] == f;
    if i < n {
      assert files[..n][i] == f;
      LinesOfFile(files[..n], f);
    }
  }

  lemma {:induction false} LinesOfNone(files: seq<File>, name: Name)
    requires forall f :: f in files ==> f.name != name
    ensures LinesOf(files, name) == []
  {
    if files != [] {
      var n := |files| - 1;
      assert files[n] in files && forall f :: f in files[..n] ==> f in files;
      LinesOfNone(files[..n], name);
    }
  }

  /** Files with one name in two directories hold the same. */
  lemma SameLines(a: seq<File>, b: seq<File>, name: Name)
    requires Sorted(a) && Sorted(b) && forall f: File :: f.name == name ==> (f in a <==> f in b)
    ensures LinesOf(a, name) == LinesOf(b, name)
  {
    if f :| f in a && f.name == name {
      LinesOfFile(a, f);
      LinesOfFile(b, f);
    } else {
      LinesOfNone(a, name);
      LinesOfNone(b, name);
    }
  }

  class Spool {
    const maxBytes: nat
    const segmentMaxBytes: nat
    const dropOldest: bool
    var files: seq<File>
    /** Each destination's open segment and its size. */
    var current: map<Destination, Name>
    var currentSize: map<Destination, nat>
    /** `_active_paths`, shared. */
    var active: set<Name>
    /** Names given out so far: `time_ns` and a counter never repeat. */
    ghost var used: Owners
    ghost var places: Places
    /** Files given up for room, in order. */
    ghost var evicted: seq<File>
    /** What each destination's drain accepted. */
    ghost var accepted: Logs

    constructor (maxBytes: nat, segmentMaxBytes: nat, dropOldest: bool)
      ensures Valid() && files == [] && places == map[] && current == map[] && evicted == [] && accepted == map[]
    {
      this.maxBytes, this.segmentMaxBytes, this.dropOldest := maxBytes, segmentMaxBytes, dropOldest;
      files, current, currentSize, active, used, places := [], map[], map[], {}, map[], map[];
      evicted, accepted := [], map[];
    }

    ghost function Now(): Snap
      reads this
    {
      Snap(files, active, used, evicted, accepted, places)
    }

    ghost predicate Valid()
      reads this
    {
      && Sorted(files)
      && Total(files) <= maxBytes
      && Ledger(files, places)
      && LogsOk(places, evicted, accepted)
      && OpenOk(files, current, currentSize, active)
      && OwnersOk(current, used)
      && UsedOk(files, active, used)
    }

    /** `_rotate_if_needed`, and the sealing of `replay` when `force` is set. */
    method Close(d: Destination, incoming: nat, force: bool)
      requires Valid()
      modifies `current, `currentSize, `active
      ensures Valid()
      ensures if d in old(current) && (force || Rolls(old(current), old(currentSize), d, incoming, segmentMaxBytes))
              then current == old(current) - {d} && active == old(active) - {old(current[d])}
              else current == old(current) && active == old(active)
      ensures force ==> d !in current
    {
      hide Sorted, Total, Ledger, LogsOk, OpenOk, UsedOk;
      if d in current.Keys {
        SizeKnown(files, current, currentSize, active, d);
        if force || currentSize[d] + incoming > segmentMaxBytes {
          CloseOk(files, current, currentSize, active, used, d);
          active, current, currentSize := active - {current[d]}, current - {d}, currentSize - {d};
        }
      }
    }

    /** `_open_segment`: the file itself appears with the first write. */
    method Open(d: Destination, name: Name)
      requires Valid() && d !in current && name !in used
      modifies `current, `currentSize, `active, `used
      ensures Valid() && current == old(current)[d := name] && active == old(active) + {name} && used == old(used)[name := d]
    {
      hide Sorted, Total, Ledger, LogsOk, OpenOk, UsedOk;
      OpensOk(files, current, currentSize, active, used, d, name);
      current, currentSize, active := current[d := name], currentSize[d := 0], active + {name};
      used := used[name := d];
    }

    lemma NamesGivenOut(d: Destination)
      requires Valid() && d in current
      ensures current[d] in used
    {
    }

    /** `_rotate_if_needed` and `_open_segment`. */
    method Prepare(d: Destination, size: nat, name: Name)
      requires Valid() && name !in used
      modifies `current, `currentSize, `active, `used
      ensures Valid() && d in current && current[d] in active && NamesGiven(old(used), used, d, name)
      ensures var rolls := Rolls(old(current), old(currentSize), d, size, segmentMaxBytes);
        && active == NextActive(old(current), old(active), d, rolls, name)
        && current[d] == (if rolls then name else old(current[d]))
        && current == old(current)[d := current[d]]
      ensures d in old(current) && d in old(currentSize) ==>
        (current[d] == old(current[d]) <==> old(currentSize[d]) + size <= segmentMaxBytes)
      ensures forall n :: n in active ==> n in old(active) || n !in old(used)
    {
      hide Sorted, Total, Ledger, LogsOk, OpenOk, UsedOk;
      if d in current {
        SizeKnown(files, current, currentSize, active, d);
        NamesGivenOut(d);
      }
      Close(d, size, false);
      if d !in current.Keys {
        Open(d, name);
      }
      SizeKnown(files, current, currentSize, active, d);
    }

    /** `_evict_oldest`: the head of the eviction order goes. */
    method EvictOldest() returns (done: bool)
      requires Valid()
      modifies `files, `places, `evicted
      ensures Valid()
      ensures done == (Order(old(files), active) != [])
      ensures !done ==> Now() == old(Now())
      ensures done ==> EvictsHead(old(Now()), Now())
    {
      var k;
      hide Sorted, Total, Ledger, LogsOk, OpenOk, UsedOk, Order, EvictsHead;
      done, k := FindOldest(files, active);
      if !done {
        NothingLeft(files, active);
        return;
      }
      RemoveTotal(files, k);
      RemoveLedger(files, places, k, Evicted);
      RemoveOk(files, current, currentSize, active, used, k);
      EvictLogs(files, places, evicted, accepted, k);
      EvictsAt(Now(), k);
      hide Sorted, Total, Ledger, LogsOk, OpenOk, UsedOk, Order, IsOldest, EvictsHead;
      evicted := evicted + [files[k]];
      files, places := Without(files, k), Moved(places, files[k].lines, Evicted);
    }

    /** The write itself, to the open segment. */
    method Write(d: Destination, line: Line)
      requires Valid() && d in current && line !in places && Total(files) + line.size <= maxBytes
      modifies `files, `currentSize, `places
      ensures Valid() && places == old(places)[line := OnDisk(current[d])]
      ensures forall f: File :: f.name != current[d] ==> (f in files <==> f in old(files))
      ensures LinesOf(files, current[d]) == LinesOf(old(files), current[d]) + [line]
    {
      hide Total, Ledger, LogsOk, OpenOk, UsedOk, LinesOf;
      var name := current[d];
      SizeKnown(files, current, currentSize, active, d);
      var found, k := Locate(files, name);
      WriteLogs(places, evicted, accepted, line, name);
      var next := if found then Written(files, k, line) else Inserted(files, k, File(name, d, Segment, [line]));
      if found {
        WriteFound(files, places, current, currentSize, active, used, d, k, line);
      } else {
        WriteNew(files, places, current, currentSize, active, used, d, k, line, File(name, d, Segment, [line]));
      }
      hide Sorted, Written, Inserted;
      files := next;
      places := places[line := OnDisk(name)];
      currentSize := currentSize[d := currentSize[d] + line.size];
    }

    /** The loop of `append`: files go in eviction order, only as many as needed. */
    method MakeRoom(size: nat) returns (fits: bool, ghost n: nat)
      requires Valid()
      modifies `files, `places, `evicted
      ensures Valid()
      ensures var order := Order(old(files), active);
        && MakesRoom(Total(old(files)), order, n, size, maxBytes, dropOldest)
        && Evicting(old(Now()), Now(), order, n)
      ensures fits <==> Total(files) + size <= maxBytes
    {
      ghost var start, order := Now(), Order(files, active);
      n := 0;
      RoomStarts(start, order, size, maxBytes);
      hide Valid, Order, Causes, Total, Fits, Evicting, EvictsHead, Unfit, MakesRoom;
      while Total(files) + size > maxBytes
        invariant Valid()
        invariant Evicting(start, Now(), order, n) && Unfit(Total(start.files), order, n, size, maxBytes)
        invariant !dropOldest ==> n == 0
        decreases |order| - n
      {
        ghost var before := Now();
        var done := false;
        if dropOldest {
          done := EvictOldest();
        }
        if !done {
          RoomEnds(start, before, order, n, size, maxBytes, dropOldest);
          return false, n;
        }
        EvictingStep(start, before, Now(), order, n, size, maxBytes);
        n := n + 1;
      }
      RoomEnds(start, Now(), order, n, size, maxBytes, dropOldest);
      fits := true;
    }

    /** `append`: rotate, open, make room, write.  `name` is the name a new segment would get; `writable`
        says whether the operating system accepts the write.  With the `drop_oldest` policy the line is
        accepted exactly when it fits beside the open segments. */
    method Append(d: Destination, line: Line, name: Name, writable: bool) returns (ok: bool, ghost n: nat)
      requires Valid() && line !in places && name !in used
      modifies this
      ensures Valid() && d in current && NamesGiven(old(used), used, d, name)
      ensures var rolls := Rolls(old(current), old(currentSize), d, line.size, segmentMaxBytes);
        && active == NextActive(old(current), old(active), d, rolls, name)
        && current == old(current)[d := if rolls then name else old(current[d])]
      ensures Admits(old(Now()).(active := active, used := used), Now(), n, current[d], line.size, maxBytes, dropOldest, writable, ok)
      ensures LinesOf(files, current[d]) == LinesOf(old(files), current[d]) + if ok then [line] else []
      ensures d in old(current) && d in old(currentSize) ==>
        (current[d] == old(current[d]) <==> old(currentSize[d]) + line.size <= segmentMaxBytes)
      ensures places.Keys == old(places.Keys) + if ok then {line} else {}
      ensures ok ==> places[line] == OnDisk(current[d])
      ensures accepted == old(accepted) && Causes(old(Now()), Now())
      ensures forall e :: Steady(e, {}, old(Now()), Now())
    {
      hide Sorted, Total, Ledger, LogsOk, OpenOk, UsedOk, Causes, Evicting, Admits, MakesRoom, Order, LinesOf, Rolls, NextActive, Steady;
      ghost var start := Now();
      Prepare(d, line.size, name);
      ghost var ready := Now();
      CausesSelf(start, ready);
      var fits;
      fits, n := MakeRoom(line.size);
      ghost var roomy := Now();
      assert ready == start.(active := active, used := used);
      RoomMade(ready, roomy, n, line.size, maxBytes, dropOldest, current[d]);
      CausesTrans(start, ready, roomy);
      ok := fits && writable;
      if ok {
        Write(d, line);
        CausesSelf(roomy, Now());
        CausesTrans(start, roomy, Now());
      }
      Admitted(ready, roomy, Now(), n, current[d], line.size, maxBytes, dropOldest, writable, ok);
      AppendSteady(start, ready, Now(), n, current[d], line.size, maxBytes, dropOldest, writable, ok);
    }

    /** The drain accepted a whole segment read earlier; it may have been evicted in the meantime. */
    method Accept(f: File)
      requires Valid() && Sealed(f, Now()) && (f in files || EvictedAs(f, evicted))
      modifies `files, `places, `accepted
      ensures Valid() && forall g :: g in files <==> g in old(files) && g.name != f.name
      ensures accepted == WithLog(old(accepted), f.owner, f)
      ensures places == if f in old(files) then Moved(old(places), f.lines, Drained(f.owner)) else old(places)
      ensures Causes(old(Now()), Now())
    {
      hide Total, Ledger, LogsOk, OpenOk, UsedOk;
      var found, k := Locate(files, f.name);
      ghost var before := Now();
      if found {
        assert files[k] in files;
        AcceptLogs(files, places, evicted, accepted, k, f.owner);
        LinesOnDisk(files, places, k);
        RemoveLedger(files, places, k, Drained(f.owner));
        RemoveTotal(files, k);
        RemoveOk(files, current, currentSize, active, used, k);
        WithoutMembers(files, k);
        AcceptCauses(before, f, Without(files, k));
        hide Sorted, Causes;
        files, places := Without(files, k), Moved(places, f.lines, Drained(f.owner));
      } else {
        NotListed(files, f.name, k);
        AcceptGone(places, evicted, accepted, f.owner, f);
        LogsGrow(accepted, f.owner, f);
        assert Causes(before, before.(accepted := WithLog(accepted, f.owner, f)));
        hide Sorted, Causes;
      }
      accepted := WithLog(accepted, f.owner, f);
    }

    /** `_quarantine`: rename, unless the segment has been evicted in the meantime. */
    method Quarantine(f: File, kind: Kind)
      requires Valid() && Sealed(f, Now()) && !kind.Segment?
      modifies `files
      ensures Valid()
      ensures forall g :: g in files <==> (g in old(files) && g.name != f.name) || (f in old(files) && g == f.(kind := kind))
    {
      hide Total, Ledger, LogsOk, OpenOk, UsedOk;
      var found, k := Locate(files, f.name);
      if found {
        assert files[k] in files;
        RenameLedger(files, places, k, kind);
        RenameOk(files, current, currentSize, active, used, k, kind);
        RenamedMembers(files, k, kind);
        hide Sorted;
        files := files[k := files[k].(kind := kind)];
      } else {
        NotListed(files, f.name, k);
      }
    }

    /** A critical section of some other thread; nothing happens when it does not apply.  A segment is only
        settled by the replay of its own destination. */
    method Other(d: Destination, turn: Turn)
      requires Valid() && (turn.AppendTurn? ==> turn.name !in used && turn.line !in places)
      modifies this
      ensures Valid() && Between(d, old(Now()), Now())
      ensures turn.AppendTurn? ==> used.Keys <= old(used.Keys) + {turn.name} && places.Keys <= old(places.Keys) + {turn.line}
      ensures !turn.AppendTurn? ==> used == old(used) && places.Keys == old(places.Keys)
    {
      hide Sorted, Total, Ledger, LogsOk, OpenOk, UsedOk, Causes, Steady, Admits, Rolls, NextActive, LinesOf, Sealed;
      match turn
      case AppendTurn(e, line, name, writable) =>
        var ok, n := Append(e, line, name, writable);
      case SealTurn(e) =>
        if e != d {
          Close(e, 0, true);
        }
        Sealing(d, old(Now()), Now());
      case AcceptTurn(name) =>
        var found, k := FindClosed(name);
        if found && files[k].owner != d {
          var f := files[k];
          Accept(f);
          OtherFile(d, f, old(Now()), Now());
        } else {
          Sealing(d, old(Now()), Now());
        }
      case QuarantineTurn(name, kind) =>
        var found, k := FindClosed(name);
        if found && files[k].owner != d && !kind.Segment? {
          var f := files[k];
          Quarantine(f, kind);
          CausesSelf(old(Now()), Now());
          OtherFile(d, f, old(Now()), Now());
        } else {
          Sealing(d, old(Now()), Now());
        }
    }

    /** The plain segment of that name, if it is on disk and closed. */
    method FindClosed(name: Name) returns (found: bool, k: nat)
      requires Valid()
      ensures found ==> k < |files| && files[k].name == name && files[k].kind.Segment? && name !in active && files[k] in files
      ensures found ==> Sealed(files[k], Now()) && forall g :: g in files && g.name == name ==> g == files[k]
      ensures !found ==> forall f :: f in files && f.name == name && f.kind.Segment? ==> name in active
    {
      hide Total, Ledger, LogsOk, OpenOk;
      found, k := Locate(files, name);
      if !found {
        NotListed(files, name, k);
        return;
      }
      RemovedIs(files, k);
      assert files[k] in files;
      found := files[k].kind.Segment? && name !in active;
    }

    /** Some of the other threads' critical sections. */
    method Others(d: Destination, script: seq<Turn>, from: nat, count: nat) returns (to: nat)
      requires Valid() && from <= |script| && Fresh(script, from, used, places)
      modifies this
      ensures Valid() && from <= to <= |script| && Fresh(script, to, used, places)
      ensures Between(d, old(Now()), Now())
      ensures from == |script| ==> Now() == old(Now()) && current == old(current)
    {
      to := from;
      BetweenSelf(d, Now());
      hide Valid, Between, Fresh;
      while to < |script| && to - from < count
        invariant from <= to <= |script| && Valid() && Fresh(script, to, used, places)
        invariant Between(d, old(Now()), Now())
        invariant to == from ==> Now() == old(Now()) && current == old(current)
      {
        ghost var before := Now();
        FreshHead(script, to, used, places);
        NamesKnown();
        Other(d, script[to]);
        FreshAfter(script, to, before.used, before.places, used, places);
        BetweenTrans(d, old(Now()), before, Now());
        to := to + 1;
      }
    }

    lemma NamesKnown()
      requires Valid()
      ensures UsedOk(files, active, used)
    {
    }

    /** What `replay` does to a segment it has read and, if decodable, offered; the segment may have been
        evicted in the meantime. */
    method Settle(d: Destination, f: File, wellFormed: seq<Line> -> bool, verdict: Name -> Verdict, ghost start: Snap, ghost was: Snap)
        returns (x: Fate)
      requires Valid() && Kept(f, start, Now()) && Read(f, f.name, d, start) && Between(d, was, Now())
      requires UsedOk(was.files, was.active, was.used)
      modifies `files, `places, `accepted
      ensures Valid() && Step(x, f.name, d, wellFormed, verdict, start, was, Now())
      ensures places.Keys == old(places.Keys)
      ensures Undisturbed(d, old(Now()), Now())
    {
      hide Sorted, Total, Ledger, LogsOk, OpenOk, UsedOk, OwnersOk, Between, Step, Undisturbed, Steady, Causes;
      ghost var now := Now();
      KeptFacts(f, start, now);
      if !wellFormed(f.lines) || verdict(f.name).Permanent? {
        var kind := if wellFormed(f.lines) then Dead else Corrupt;
        Quarantine(f, kind);
        x := if wellFormed(f.lines) then Offered(f, Permanent) else Undecodable(f);
        SettledAside(x, f, kind, d, wellFormed, verdict, start, was, now, Now());
      } else if verdict(f.name).Accepted? {
        Accept(f);
        x := Offered(f, Accepted);
        SettledAccepted(f, d, wellFormed, verdict, start, was, now, Now());
      } else {
        x := Offered(f, Transient);
        StepLeaves(x, f.name, d, wellFormed, verdict, start, was, now);
        UndisturbedSelf(d, now);
      }
    }

    /** Reading a closed segment, and settling it after other threads ran. */
    method Offer(d: Destination, n: Name, wellFormed: seq<Line> -> bool, verdict: Name -> Verdict,
                 script: seq<Turn>, from: nat, count: nat, ghost start: Snap, ghost was: Snap) returns (x: Fate, to: nat)
      requires Valid() && from <= |script| && Fresh(script, from, used, places) && n !in active
      requires Reached(n, d, start, Now()) && forall f :: f in start.files && f.owner == d && f.name == n ==> f.kind.Segment?
      requires Between(d, was, Now()) && UsedOk(was.files, was.active, was.used)
      modifies this
      ensures Valid() && from <= to <= |script| && Fresh(script, to, used, places)
      ensures Step(x, n, d, wellFormed, verdict, start, was, Now())
      ensures from == |script| ==> Undisturbed(d, old(Now()), Now())
    {
      hide Sorted, Total, Ledger, LogsOk, OpenOk, UsedOk, OwnersOk, Fresh, Between, Reached, Step, Undisturbed, Sealed, Kept;
      ghost var s0 := Now();
      var found, k := FindClosed(n);
      if !found {
        MissingSettled(n, d, start, s0);
        StepLeaves(Missing, n, d, wellFormed, verdict, start, was, s0);
        UndisturbedSelf(d, s0);
        return Missing, from;
      }
      var f := files[k];
      ReadNow(f, n, d, start, s0);
      to := Others(d, script, from, count);
      KeptBetween(d, start, s0, Now(), f);
      BetweenTrans(d, was, s0, Now());
      ghost var s1 := Now();
      x := Settle(d, f, wellFormed, verdict, start, was);
      FreshSame(script, to, s1, Now());
    }

    /** The loop body of `replay`, for the listed name `n`: skip the segment when it is open; otherwise read,
        offer and settle it.  Other threads run before the check, before the read and during the offer. */
    method ReplayOne(d: Destination, n: Name, wellFormed: seq<Line> -> bool, verdict: Name -> Verdict,
                     script: seq<Turn>, from: nat, pace: nat -> nat, ghost start: Snap) returns (x: Fate, to: nat)
      requires Valid() && from <= |script| && Fresh(script, from, used, places)
      requires Reached(n, d, start, Now()) && forall f :: f in start.files && f.owner == d && f.name == n ==> f.kind.Segment?
      modifies this
      ensures Valid() && from <= to <= |script| && Fresh(script, to, used, places)
      ensures Step(x, n, d, wellFormed, verdict, start, old(Now()), Now())
      ensures from == |script| ==> Undisturbed(d, old(Now()), Now())
    {
      hide Sorted, Total, Ledger, LogsOk, OpenOk, UsedOk, OwnersOk, Fresh, Between, Reached, Step, Undisturbed;
      ghost var was := Now();
      NamesKnown();
      to := Others(d, script, from, pace(0));
      ReachedStays(n, d, start, was, Now());
      if d in current.Keys && current[d] == n {
        OpenIsNew(d, n, start);
        StepLeaves(Reopened, n, d, wellFormed, verdict, start, was, Now());
        UndisturbedSelf(d, was);
        return Reopened, to;
      }
      ClosedNow(d, n, start);
      ghost var checked := Now();
      to := Others(d, script, to, pace(1));
      ReachedStays(n, d, start, checked, Now());
      BetweenTrans(d, was, checked, Now());
      StillClosed(d, n, start, checked, Now());
      x, to := Offer(d, n, wellFormed, verdict, script, to, pace(2), start, was);
    }

    lemma OpenIsNew(d: Destination, n: Name, start: Snap)
      requires Valid() && d in current && current[d] == n && Reached(n, d, start, Now())
      ensures n !in start.used
    {
      SizeKnown(files, current, currentSize, active, d);
    }

    /** A name of `d` that is not its open segment is closed. */
    lemma ClosedNow(d: Destination, n: Name, start: Snap)
      requires Valid() && !(d in current && current[d] == n) && Reached(n, d, start, Now())
      ensures n in used && n !in active
    {
      assert forall e :: e in current ==> used[current[e]] == e;
    }

    /** `replay` up to its loop: the open segment is sealed, then the closed segments are listed. */
    method SealAndList(d: Destination, script: seq<Turn>, count: nat) returns (segments: seq<Name>, to: nat, ghost start: Snap)
      requires Valid() && Fresh(script, 0, used, places)
      modifies this
      ensures Valid() && to <= |script| && Fresh(script, to, used, places)
      ensures start == old(Now()).(active := if d in old(current) then old(active) - {old(current[d])} else old(active))
      ensures ClosedAt(d, start) && Sorted(start.files)
      ensures Listed(d, segments, start, Now()) && NamesOf(d, segments, used) && Between(d, start, Now())
      ensures script == [] ==> Now() == start
    {
      hide Sorted, Total, Ledger, LogsOk, OpenOk, UsedOk, OwnersOk, Fresh, Between, ClosedAt, Listed;
      Close(d, 0, true);
      start := Now();
      SealedStart(d);
      to := Others(d, script, 0, count);
      segments := SegmentsLocal(files, d);
      ListingHolds(d, segments, start, Now());
    }

    /** `replay`, whatever other threads do: `script` is what they do, and `pace` says how much of it happens
        at each point where the lock is free.  The listed segments are taken oldest first, and none is skipped
        except those evicted before they could be read and those opened since; the drain's log grows by
        exactly the segments it accepted; a file is set aside exactly on its verdict; everything else of the
        destination stays where it is unless evicted; and no line moves without a cause. */
    method Replay(d: Destination, wellFormed: seq<Line> -> bool, verdict: Name -> Verdict, maxEvents: Option<nat>,
                  script: seq<Turn>, pace: nat -> nat)
        returns (replayed: nat, ghost listed: seq<Name>, ghost fates: seq<Fate>, ghost start: Snap)
      requires Valid() && Fresh(script, 0, used, places)
      modifies this
      ensures Valid()
      ensures start == old(Now()).(active := if d in old(current) then old(active) - {old(current[d])} else old(active))
      ensures ClosedAt(d, start)
      ensures Progress(d, listed, fates, wellFormed, verdict, start, Now())
      ensures WentOn(fates, maxEvents) && Stopped(listed, fates, maxEvents)
      ensures replayed == Replayed(fates)
      ensures script == [] ==> Undisturbed(d, start, Now()) && Alone(d, listed, fates, wellFormed, verdict, start, Now())
    {
      hide Alone, Valid, Sorted, Fresh, Between, Progress, Undisturbed, WentOn, Stopped, ClosedAt, Listed, Going, NamesOf, Replayed, AcceptedOf;
      var segments: seq<Name>, to: nat;
      segments, to, start := SealAndList(d, script, pace(0));
      ProgressStarts(d, segments, wellFormed, verdict, start, Now());
      GoingStarts(d, segments, wellFormed, verdict, maxEvents, start, Now());
      listed := segments;
      replayed, fates := ReplayListed(d, segments, wellFormed, verdict, maxEvents, script, to, pace, start);
      Ends(d, segments, |fates|, fates, replayed, wellFormed, verdict, maxEvents, start, Now());
      if script == [] {
        UndisturbedSelf(d, start);
        AloneEnds(d, segments, fates, wellFormed, verdict, start, Now());
      }
    }

    /** The loop of `replay`, over the listed segments. */
    method ReplayListed(d: Destination, segments: seq<Name>, wellFormed: seq<Line> -> bool, verdict: Name -> Verdict,
                        maxEvents: Option<nat>, script: seq<Turn>, from: nat, pace: nat -> nat, ghost start: Snap)
        returns (replayed: nat, ghost fates: seq<Fate>)
      requires Valid() && from <= |script| && Fresh(script, from, used, places)
      requires Going(d, segments, 0, [], 0, wellFormed, verdict, maxEvents, start, Now())
      requires ClosedAt(d, start) && Sorted(start.files)
      modifies this
      ensures Valid() && Going(d, segments, |fates|, fates, replayed, wellFormed, verdict, maxEvents, start, Now())
      ensures |fates| < |segments| ==>
        (maxEvents.Some? && replayed >= maxEvents.value) || (fates != [] && IsTransient(fates[|fates| - 1]))
      ensures script == [] ==> Undisturbed(d, old(Now()), Now())
    {
      hide Valid, Sorted, Fresh, Undisturbed, Going, ClosedAt, Reached, Step, UsedOk;
      var to: nat, i: nat := from, 0;
      fates, replayed := [], 0;
      UndisturbedSelf(d, Now());
      while i < |segments|
        invariant i == |fates| <= |segments| && to <= |script| && Valid() && Fresh(script, to, used, places)
        invariant Going(d, segments, i, fates, replayed, wellFormed, verdict, maxEvents, start, Now())
        invariant i > 0 ==> !IsTransient(fates[i - 1])
        invariant script == [] ==> Undisturbed(d, old(Now()), Now())
      {
        if maxEvents.Some? && replayed >= maxEvents.value {
          break;
        }
        ghost var before := Now();
        NamesKnown();
        NextReached(d, segments, i, fates, replayed, wellFormed, verdict, maxEvents, start, before);
        var x;
        x, to := ReplayOne(d, segments[i], wellFormed, verdict, script, to, k => pace(3 * i + k + 1), start);
        GoesOn(d, segments, i, fates, replayed, wellFormed, verdict, maxEvents, start, before, Now(), x);
        if script == [] { UndisturbedTrans(d, old(Now()), before, Now()); }
        fates := fates + [x];
        i := i + 1;
        if IsTransient(x) {
          break;
        }
        if x.Offered? && x.verdict.Accepted? {
          replayed := replayed + |x.file.lines|;
        }
      }
    }

    lemma SealedStart(d: Destination)
      requires Valid() && d !in current
      ensures ClosedAt(d, Now()) && Sorted(files)
    {
      forall n | n in active ensures used[n] != d {
        var e :| e in current && current[e] == n;
        assert used[n] == e;
      }
    }
  }

  /** Nothing but the files and the log of `d` changed, and none was evicted. */
  ghost predicate Undisturbed(d: Destination, a: Snap, b: Snap) {
    && b.evicted == a.evicted && b.used == a.used
    && (forall f: File :: f.owner != d ==> (f in b.files <==> f in a.files))
    && (forall e :: e != d ==> Log(b.accepted, e) == Log(a.accepted, e))
  }

  lemma UndisturbedSelf(d: Destination, a: Snap)
    ensures Undisturbed(d, a, a)
  {
  }

  lemma UndisturbedTrans(d: Destination, a: Snap, b: Snap, c: Snap)
    requires Undisturbed(d, a, b) && Undisturbed(d, b, c)
    ensures Undisturbed(d, a, c)
  {
  }

  lemma FreshSame(script: seq<Turn>, from: nat, a: Snap, b: Snap)
    requires Fresh(script, from, a.used, a.places) && a.used == b.used && a.places.Keys == b.places.Keys
    ensures Fresh(script, from, b.used, b.places)
  {
  }

  ghost predicate NamesOf(d: Destination, names: seq<Name>, used: Owners) {
    forall n :: n in names ==> n in used && used[n] == d
  }

  /** The state of the loop of `replay` after `i` segments. */
  ghost predicate Going(d: Destination, listed: seq<Name>, i: nat, fates: seq<Fate>, replayed: nat, wellFormed: seq<Line> -> bool,
                        verdict: Name -> Verdict, maxEvents: Option<nat>, start: Snap, s: Snap)
  {
    && i == |fates| && replayed == Replayed(fates)
    && Progress(d, listed, fates, wellFormed, verdict, start, s)
    && WentOn(fates, maxEvents)
    && NamesOf(d, listed, s.used)
  }

  lemma GoingStarts(d: Destination, listed: seq<Name>, wellFormed: seq<Line> -> bool, verdict: Name -> Verdict, maxEvents: Option<nat>,
                    start: Snap, s: Snap)
    requires Progress(d, listed, [], wellFormed, verdict, start, s) && NamesOf(d, listed, s.used)
    ensures Going(d, listed, 0, [], 0, wellFormed, verdict, maxEvents, start, s)
  {
  }

  lemma StepExtends(x: Fate, n: Name, d: Destination, wellFormed: seq<Line> -> bool, verdict: Name -> Verdict,
                    start: Snap, a: Snap, b: Snap)
    requires Step(x, n, d, wellFormed, verdict, start, a, b)
    ensures Extends(a.used, b.used)
  {
  }

  lemma GoesOn(d: Destination, listed: seq<Name>, i: nat, fates: seq<Fate>, replayed: nat, wellFormed: seq<Line> -> bool,
               verdict: Name -> Verdict, maxEvents: Option<nat>, start: Snap, a: Snap, b: Snap, x: Fate)
    requires Going(d, listed, i, fates, replayed, wellFormed, verdict, maxEvents, start, a) && i < |listed|
    requires !(maxEvents.Some? && replayed >= maxEvents.value) && (i > 0 ==> !IsTransient(fates[i - 1]))
    requires Step(x, listed[i], d, wellFormed, verdict, start, a, b) && ClosedAt(d, start)
    ensures Going(d, listed, i + 1, fates + [x], replayed + (if x.Offered? && x.verdict.Accepted? then |x.file.lines| else 0),
                  wellFormed, verdict, maxEvents, start, b)
  {
    StepExtends(x, listed[i], d, wellFormed, verdict, start, a, b);
    hide Progress, Step, WentOn, Replayed, ClosedAt;
    assert !Enough(maxEvents, fates);
    assert UsedOk(start.files, start.active, start.used) by { StartKnown(d, start); }
    hide Enough, UsedOk;
    ProgressStep(d, listed, fates, wellFormed, verdict, start, a, b, x);
    WentOnWith(fates, x, maxEvents);
    AcceptedWith(fates, x);
  }

  lemma StartKnown(d: Destination, start: Snap)
    requires ClosedAt(d, start)
    ensures UsedOk(start.files, start.active, start.used)
  {
  }

  lemma Ends(d: Destination, listed: seq<Name>, i: nat, fates: seq<Fate>, replayed: nat, wellFormed: seq<Line> -> bool,
             verdict: Name -> Verdict, maxEvents: Option<nat>, start: Snap, s: Snap)
    requires Going(d, listed, i, fates, replayed, wellFormed, verdict, maxEvents, start, s)
    requires i < |listed| ==> (maxEvents.Some? && replayed >= maxEvents.value) || (i > 0 && IsTransient(fates[i - 1]))
    ensures Progress(d, listed, fates, wellFormed, verdict, start, s) && replayed == Replayed(fates)
    ensures WentOn(fates, maxEvents) && Stopped(listed, fates, maxEvents) && NamesOf(d, listed, s.used)
  {
    hide Progress, WentOn;
  }

  lemma AloneEnds(d: Destination, listed: seq<Name>, fates: seq<Fate>, wellFormed: seq<Line> -> bool, verdict: Name -> Verdict,
                  start: Snap, s: Snap)
    requires Progress(d, listed, fates, wellFormed, verdict, start, s) && NamesOf(d, listed, s.used)
    requires Undisturbed(d, start, s) && ClosedAt(d, start) && Sorted(start.files)
    ensures Alone(d, listed, fates, wellFormed, verdict, start, s)
  {
    hide Steady, Traced, Listed, Causes, Sorted, Outcome;
    ReplayAlone(d, listed, fates, wellFormed, verdict, start, s);
  }

  /** The next listed segment has not been touched yet. */
  lemma NextReached(d: Destination, listed: seq<Name>, i: nat, fates: seq<Fate>, replayed: nat, wellFormed: seq<Line> -> bool,
                    verdict: Name -> Verdict, maxEvents: Option<nat>, start: Snap, s: Snap)
    requires Going(d, listed, i, fates, replayed, wellFormed, verdict, maxEvents, start, s) && i < |listed| && ClosedAt(d, start)
    requires UsedOk(s.files, s.active, s.used) && Sorted(start.files)
    ensures var n := listed[i];
      Reached(n, d, start, s) && forall f :: f in start.files && f.owner == d && f.name == n ==> f.kind.Segment?
  {
    var n := listed[i];
    assert n in listed;
    assert n !in TouchedNames(listed, fates);
    ReachedFrom(n, d, TouchedNames(listed, fates), start, s);
    forall f | f in start.files && f.owner == d && f.name == n ensures f.kind.Segment? {
      assert IsSegment(n, d, start.files);
      var g :| g in start.files && g.name == n && g.owner == d && g.kind.Segment?;
      SpoolTurns.OneName(start.files, f, g);
    }
  }

  lemma StillClosed(d: Destination, n: Name, start: Snap, a: Snap, b: Snap)
    requires Between(d, a, b) && n in a.used && n !in a.active
    ensures n !in b.active
  {
  }

  lemma KeptBetween(d: Destination, start: Snap, a: Snap, b: Snap, f: File)
    requires Between(d, a, b) && Kept(f, start, a) && f.owner == d
    ensures Kept(f, start, b)
  {
    KeptStays(d, {}, start, a, b, f);
  }

  lemma KeptFacts(f: File, start: Snap, s: Snap)
    requires Kept(f, start, s)
    ensures Sealed(f, s) && (f in s.files || EvictedAs(f, s.evicted))
  {
    if f !in s.files { EvictedMore(f, s.evicted[|start.evicted|..], s.evicted); }
  }

  /** What was read is the segment as it was listed, and nobody else will change it. */
  lemma ReadNow(f: File, n: Name, d: Destination, start: Snap, s: Snap)
    requires Reached(n, d, start, s) && f in s.files && f.name == n && f.kind.Segment? && Sealed(f, s)
    ensures Read(f, n, d, start) && Kept(f, start, s)
  {
  }

  lemma SettledAside(x: Fate, f: File, kind: Kind, d: Destination, wellFormed: seq<Line> -> bool, verdict: Name -> Verdict,
                     start: Snap, was: Snap, a: Snap, b: Snap)
    requires Between(d, was, a) && UsedOk(was.files, was.active, was.used) && UsedOk(b.files, b.active, b.used)
    requires Kept(f, start, a) && Read(f, f.name, d, start) && !kind.Segment? && b == a.(files := b.files)
    requires if wellFormed(f.lines) then x == Offered(f, Permanent) && verdict(f.name).Permanent? && kind == Dead
             else x == Undecodable(f) && kind == Corrupt
    requires forall g :: g in b.files <==> (g in a.files && g.name != f.name) || (f in a.files && g == f.(kind := kind))
    ensures Step(x, f.name, d, wellFormed, verdict, start, was, b) && Undisturbed(d, a, b)
  {
    SetAsideKept(f, kind, start, a, b);
    CausesSelf(a, b);
    StepTouches(x, f.name, d, wellFormed, verdict, start, was, a, b, f);
  }

  lemma SettledAccepted(f: File, d: Destination, wellFormed: seq<Line> -> bool, verdict: Name -> Verdict,
                        start: Snap, was: Snap, a: Snap, b: Snap)
    requires Between(d, was, a) && UsedOk(was.files, was.active, was.used) && UsedOk(b.files, b.active, b.used)
    requires Kept(f, start, a) && Read(f, f.name, d, start) && wellFormed(f.lines) && verdict(f.name).Accepted?
    requires b == a.(files := b.files, places := b.places, accepted := WithLog(a.accepted, d, f)) && Causes(a, b)
    requires forall g :: g in b.files <==> g in a.files && g.name != f.name
    ensures Step(Offered(f, Accepted), f.name, d, wellFormed, verdict, start, was, b) && Undisturbed(d, a, b)
  {
    StepTouches(Offered(f, Accepted), f.name, d, wellFormed, verdict, start, was, a, b, f);
  }

  /** `_segments_local`: the names of a destination's plain segments, oldest first. */
  method SegmentsLocal(files: seq<File>, d: Destination) returns (names: seq<Name>)
    requires Sorted(files)
    ensures Increasing(names)
    ensures forall n :: n in names <==> IsSegment(n, d, files)
  {
    names := [];
    var i := 0;
    while i < |files|
      invariant 0 <= i <= |files|
      invariant Increasing(names)
      invariant forall n :: n in names ==> exists j :: 0 <= j < i && files[j].name == n
      invariant forall n :: n in names <==> IsSegment(n, d, files[..i])
    {
      ListMore(names, files, i, d);
      if files[i].owner == d && files[i].kind.Segment? {
        names := names + [files[i].name];
      }
      i := i + 1;
    }
    assert files[..i] == files;
  }

  lemma ListMore(names: seq<Name>, files: seq<File>, i: nat, d: Destination)
    requires Sorted(files) && i < |files| && Increasing(names)
    requires forall n :: n in names ==> exists j :: 0 <= j < i && files[j].name == n
    ensures Increasing(names + [files[i].name])
    ensures forall n :: IsSegment(n, d, files[..i + 1]) <==>
      IsSegment(n, d, files[..i]) || (files[i].owner == d && files[i].kind.Segment? && n == files[i].name)
  {
    forall k | 0 <= k < |names| ensures names[k] < files[i].name {
      assert names[k] in names;
    }
    var front, next := files[..i], files[..i + 1];
    assert next == front + [files[i]];
    hide Sorted, Increasing;
    forall n ensures IsSegment(n, d, next) <==>
      IsSegment(n, d, front) || (files[i].owner == d && files[i].kind.Segment? && n == files[i].name)
    {
      if f :| f in front && f.name == n && f.owner == d && f.kind.Segment? {
        assert f in next;
      }
      assert files[i] in next;
    }
  }

  lemma NotListed(files: seq<File>, name: Name, k: nat)
    requires k <= |files| && (forall i :: 0 <= i < k ==> files[i].name < name) && forall i :: k <= i < |files| ==> name < files[i].name
    ensures forall g :: g in files ==> g.name != name
  {
  }

  lemma RemovedIs(files: seq<File>, k: nat)
    requires Sorted(files) && k < |files|
    ensures forall g :: g in files && g.name == files[k].name ==> g == files[k]
  {
    forall g | g in files && g.name == files[k].name ensures g == files[k] {
      SpoolTurns.OneName(files, g, files[k]);
    }
  }

  lemma OneMore(order: seq<File>, n: nat)
    requires n < |order|
    ensures order[..n + 1] == order[..n] + [order[n]] && order[n..] == [order[n]] + order[n + 1..]
    ensures Total(order[..n + 1]) == Total(order[..n]) + Size(order[n].lines)
  {
    assert order[..n + 1] == order[..n] + [order[n]];
    TotalSum(order[..n], [order[n]]);
    TotalOne(order[n]);
  }

  lemma EvictsAt(a: Snap, k: nat)
    requires Sorted(a.files) && Ledger(a.files, a.places) && IsOldest(a.files, a.active, k)
    ensures Order(a.files, a.active) != []
    ensures EvictsHead(a, a.(files := Without(a.files, k), evicted := a.evicted + [a.files[k]],
                             places := Moved(a.places, a.files[k].lines, Evicted)))
  {
    OldestIsNext(a.files, a.active, k);
    LinesOnDisk(a.files, a.places, k);
    WithoutMembers(a.files, k);
    RemovedIs(a.files, k);
    RemoveTotal(a.files, k);
    EvictCauses(a, a.files[k], Without(a.files, k));
    hide Sorted, Total, Ledger, Order, IsOldest, Causes;
  }

  lemma EvictCauses(a: Snap, f: File, rest: seq<File>)
    requires forall l :: l in f.lines ==> l in a.places && a.places[l].OnDisk?
    ensures Causes(a, a.(files := rest, evicted := a.evicted + [f], places := Moved(a.places, f.lines, Evicted)))
  {
    var b := a.(files := rest, evicted := a.evicted + [f], places := Moved(a.places, f.lines, Evicted));
    assert b.evicted[|a.evicted|..] == [f];
    forall l | l in a.places ensures l in b.places && Cause(l, a, b) {
      if l in f.lines { assert f in [f]; }
    }
  }

  lemma AcceptCauses(a: Snap, f: File, rest: seq<File>)
    requires forall l :: l in f.lines ==> l in a.places && a.places[l].OnDisk?
    ensures Causes(a, a.(files := rest, accepted := WithLog(a.accepted, f.owner, f),
                         places := Moved(a.places, f.lines, Drained(f.owner))))
  {
    var b := a.(files := rest, accepted := WithLog(a.accepted, f.owner, f), places := Moved(a.places, f.lines, Drained(f.owner)));
    LogsGrow(a.accepted, f.owner, f);
    assert Log(b.accepted, f.owner)[|Log(a.accepted, f.owner)|..] == [f];
    forall l | l in a.places ensures l in b.places && Cause(l, a, b) {
      if l in f.lines { assert f in [f]; }
    }
  }

  /** The head of the eviction order has left the directory, its lines counted as evicted. */
  ghost predicate EvictsHead(a: Snap, b: Snap) {
    var order := Order(a.files, a.active);
    && order != [] && Order(b.files, a.active) == order[1..]
    && (forall g :: g in b.files <==> g in a.files && g != order[0])
    && Total(b.files) + Size(order[0].lines) == Total(a.files)
    && b.evicted == a.evicted + [order[0]]
    && b.places == Moved(a.places, order[0].lines, Evicted)
    && Causes(a, b)
  }

  /** The first `n` files of the eviction order are gone. */
  ghost predicate Evicting(start: Snap, s: Snap, order: seq<File>, n: nat) {
    && order == Order(start.files, start.active)
    && n <= |order| && Order(s.files, start.active) == order[n..]
    && Total(s.files) + Total(order[..n]) == Total(start.files)
    && s.evicted == start.evicted + order[..n]
    && (forall f :: f in s.files <==> f in start.files && f !in order[..n])
    && s.places.Keys == start.places.Keys
    && Causes(start, s)
  }

  ghost predicate Unfit(total: nat, order: seq<File>, n: nat, size: nat, maxBytes: nat) {
    n <= |order| && forall m: nat :: m < n ==> !Fits(total, order, m, size, maxBytes)
  }

  lemma RoomStarts(start: Snap, order: seq<File>, size: nat, maxBytes: nat)
    requires order == Order(start.files, start.active)
    ensures Evicting(start, start, order, 0) && Unfit(Total(start.files), order, 0, size, maxBytes)
  {
    CausesSelf(start, start);
    hide Order, Causes;
  }

  lemma EvictingStep(start: Snap, a: Snap, b: Snap, order: seq<File>, n: nat, size: nat, maxBytes: nat)
    requires Evicting(start, a, order, n) && Unfit(Total(start.files), order, n, size, maxBytes)
    requires Total(a.files) + size > maxBytes && a.active == start.active && EvictsHead(a, b)
    ensures n < |order| && Evicting(start, b, order, n + 1) && Unfit(Total(start.files), order, n + 1, size, maxBytes)
  {
    hide Order, Causes, Total, Size;
    assert order[n..] != [];
    CausesTrans(start, a, b);
    OneMore(order, n);
    NoRoom(Total(start.files), order, n, size, maxBytes, Total(a.files));
  }

  lemma RoomEnds(start: Snap, s: Snap, order: seq<File>, n: nat, size: nat, maxBytes: nat, dropOldest: bool)
    requires Evicting(start, s, order, n) && Unfit(Total(start.files), order, n, size, maxBytes) && (!dropOldest ==> n == 0)
    requires Total(s.files) + size <= maxBytes || !dropOldest || Order(s.files, start.active) == []
    ensures MakesRoom(Total(start.files), order, n, size, maxBytes, dropOldest)
  {
    hide Order, Causes, Total;
    NoRoom(Total(start.files), order, n, size, maxBytes, Total(s.files));
  }

  lemma NoRoom(total: nat, order: seq<File>, n: nat, size: nat, maxBytes: nat, left: nat)
    requires n <= |order| && left + Total(order[..n]) == total
    ensures Fits(total, order, n, size, maxBytes) <==> left + size <= maxBytes
  {
  }

  function Written(files: seq<File>, k: nat, line: Line): seq<File>
    requires k < |files|
  {
    files[k := files[k].(lines := files[k].lines + [line])]
  }

  function Inserted(files: seq<File>, k: nat, f: File): seq<File>
    requires k <= |files|
  {
    files[..k] + [f] + files[k..]
  }

  /** The directory `out` is `files` with the line added to the open segment of `d`. */
  ghost predicate Wrote(files: seq<File>, places: Places, current: map<Destination, Name>, currentSize: map<Destination, nat>,
                        active: set<Name>, used: Owners, d: Destination, line: Line, out: seq<File>)
    requires d in current && d in currentSize
  {
    && Sorted(out) && Total(out) == Total(files) + line.size && Ledger(out, places[line := OnDisk(current[d])])
    && OpenOk(out, current, currentSize[d := currentSize[d] + line.size], active) && UsedOk(out, active, used)
    && (forall f: File :: f.name != current[d] ==> (f in out <==> f in files))
    && LinesOf(out, current[d]) == LinesOf(files, current[d]) + [line]
  }

  lemma WriteFound(files: seq<File>, places: Places, current: map<Destination, Name>, currentSize: map<Destination, nat>,
                   active: set<Name>, used: Owners, d: Destination, k: nat, line: Line)
    requires Sorted(files) && Ledger(files, places) && OpenOk(files, current, currentSize, active) && UsedOk(files, active, used)
    requires d in current && d in currentSize && k < |files| && files[k].name == current[d] && line !in places
    ensures Wrote(files, places, current, currentSize, active, used, d, line, Written(files, k, line))
  {
    hide Total, Located, NoRepeats, Covered, OpenOk, UsedOk, LinesOf;
    WriteLedger(files, places, k, line);
    WriteOk(files, current, currentSize, active, used, d, k, line);
    WrittenIs(files, k, line);
    hide Ledger, Sorted;
  }

  lemma WriteNew(files: seq<File>, places: Places, current: map<Destination, Name>, currentSize: map<Destination, nat>,
                 active: set<Name>, used: Owners, d: Destination, k: nat, line: Line, f: File)
    requires Sorted(files) && Ledger(files, places) && OpenOk(files, current, currentSize, active) && UsedOk(files, active, used)
    requires d in current && d in currentSize && f == File(current[d], d, Segment, [line]) && f.name in active && OwnersOk(current, used)
    requires line !in places && k <= |files|
    requires forall i :: 0 <= i < k ==> files[i].name < f.name
    requires forall i :: k <= i < |files| ==> f.name < files[i].name
    ensures Wrote(files, places, current, currentSize, active, used, d, line, Inserted(files, k, f))
  {
    hide Total, Ledger, LinesOf, OpenOk, UsedOk, Sorted, Inserted;
    InsertedLedger(files, places, k, line, f);
    InsertedOpen(files, current, currentSize, active, used, d, k, line, f);
    CreatedIs(files, k, f);
  }

  lemma InsertedLedger(files: seq<File>, places: Places, k: nat, line: Line, f: File)
    requires Ledger(files, places) && Sorted(files) && k <= |files| && f.lines == [line] && line !in places
    requires forall i :: 0 <= i < k ==> files[i].name < f.name
    requires forall i :: k <= i < |files| ==> f.name < files[i].name
    ensures var out := Inserted(files, k, f);
      Ledger(out, places[line := OnDisk(f.name)]) && Sorted(out) && Total(out) == Total(files) + line.size
  {
    hide Total, Ledger, Sorted;
    CreateLedger(files, places, k, f);
  }

  lemma InsertedOpen(files: seq<File>, current: map<Destination, Name>, currentSize: map<Destination, nat>, active: set<Name>,
                     used: Owners, d: Destination, k: nat, line: Line, f: File)
    requires OpenOk(files, current, currentSize, active) && UsedOk(files, active, used)
    requires d in current && d in currentSize && f == File(current[d], d, Segment, [line]) && f.name in active && OwnersOk(current, used) && k <= |files|
    requires forall i :: 0 <= i < k ==> files[i].name < f.name
    requires forall i :: k <= i < |files| ==> f.name < files[i].name
    ensures var out := Inserted(files, k, f);
      OpenOk(out, current, currentSize[d := currentSize[d] + line.size], active) && UsedOk(out, active, used)
  {
    hide OpenOk, UsedOk;
    CreateOk(files, current, currentSize, active, used, d, k, f);
  }

  lemma WrittenIs(files: seq<File>, k: nat, line: Line)
    requires Sorted(files) && k < |files|
    ensures var out := Written(files, k, line);
      && (forall f: File :: f.name != files[k].name ==> (f in out <==> f in files))
      && LinesOf(out, files[k].name) == LinesOf(files, files[k].name) + [line]
  {
    var out := Written(files, k, line);
    forall f: File | f.name != files[k].name ensures f in out <==> f in files {
      if f in files {
        var i :| 0 <= i < |files| && files[i] == f;
        assert out[i] == f;
      }
    }
    assert out[k] in out && files[k] in files;
    LinesOfFile(out, out[k]);
    LinesOfFile(files, files[k]);
  }

  lemma CreatedIs(files: seq<File>, k: nat, f: File)
    requires k <= |files| && Sorted(Inserted(files, k, f))
    requires forall i :: 0 <= i < k ==> files[i].name < f.name
    requires forall i :: k <= i < |files| ==> f.name < files[i].name
    ensures var out := Inserted(files, k, f);
      && (forall g: File :: g.name != f.name ==> (g in out <==> g in files))
      && LinesOf(out, f.name) == LinesOf(files, f.name) + f.lines
  {
    hide Sorted, LinesOf, Inserted;
    InsertedMembers(files, k, f);
    NotListed(files, f.name, k);
    LinesOfFile(Inserted(files, k, f), f);
    LinesOfNone(files, f.name);
    assert [] + f.lines == f.lines;
  }

  lemma InsertedMembers(files: seq<File>, k: nat, f: File)
    requires k <= |files|
    ensures forall g :: g in Inserted(files, k, f) <==> g in files || g == f
  {
    assert files == files[..k] + files[k..];
  }

  /** What an append does to the other files: it evicts the first `n` files of the eviction order, as many
      as it takes, or all; it succeeds exactly when that makes enough room and the write is possible.  With
      the `drop_oldest` policy that is: when the line fits beside the open segments. */
  ghost predicate Admits(a: Snap, b: Snap, n: nat, name: Name, size: nat, maxBytes: nat, dropOldest: bool, writable: bool, ok: bool) {
    var order := Order(a.files, a.active);
    && MakesRoom(Total(a.files), order, n, size, maxBytes, dropOldest)
    && n <= |order| && ok == (writable && Fits(Total(a.files), order, n, size, maxBytes))
    && (dropOldest ==> ok == (writable && OpenBytes(a.files, a.active) + size <= maxBytes))
    && b.evicted == a.evicted + order[..n]
    && (forall f :: f in order[..n] ==> f.name !in a.active)
    && (forall f: File :: f.name != name ==> (f in b.files <==> f in a.files && f !in order[..n]))
  }

  lemma RoomMade(a: Snap, b: Snap, n: nat, size: nat, maxBytes: nat, dropOldest: bool, name: Name)
    requires Evicting(a, b, Order(a.files, a.active), n) && Sorted(a.files) && Sorted(b.files) && name in a.active
    ensures Causes(a, b) && b.places.Keys == a.places.Keys
    ensures LinesOf(b.files, name) == LinesOf(a.files, name)
  {
    OpenUntouched(a.files, b.files, a.active, Order(a.files, a.active), n, name);
    hide Sorted, Order, Causes, LinesOf;
  }

  lemma Admitted(a: Snap, b: Snap, c: Snap, n: nat, name: Name, size: nat, maxBytes: nat, dropOldest: bool, writable: bool, ok: bool)
    requires Evicting(a, b, Order(a.files, a.active), n)
    requires MakesRoom(Total(a.files), Order(a.files, a.active), n, size, maxBytes, dropOldest)
    requires Sorted(a.files) && Sorted(b.files) && name in a.active
    requires ok == (writable && Total(b.files) + size <= maxBytes) && c.evicted == b.evicted
    requires forall f: File :: f.name != name ==> (f in c.files <==> f in b.files)
    ensures Admits(a, c, n, name, size, maxBytes, dropOldest, writable, ok)
  {
    var order := Order(a.files, a.active);
    NoRoom(Total(a.files), order, n, size, maxBytes, Total(b.files));
    if dropOldest { RoomExactly(a.files, a.active, n, size, maxBytes); }
    OpenUntouched(a.files, b.files, a.active, order, n, name);
    hide Sorted, Order, Causes, LinesOf, Total, MakesRoom, Fits, OpenBytes;
  }

  /** Eviction does not touch an open segment. */
  lemma OpenUntouched(before: seq<File>, after: seq<File>, active: set<Name>, order: seq<File>, n: nat, name: Name)
    requires order == Order(before, active) && n <= |order| && name in active && Sorted(before) && Sorted(after)
    requires forall f :: f in after <==> f in before && f !in order[..n]
    ensures LinesOf(after, name) == LinesOf(before, name)
    ensures forall f :: f in order[..n] ==> f.name !in active
  {
    forall f | f in order[..n] ensures f.name !in active {
      assert f in order;
      OrderMembers(before, active, f);
    }
    SameLines(before, after, name);
  }

  /** An append touches only its own segment; what is closed stays or is evicted. */
  lemma AppendSteady(a: Snap, ready: Snap, b: Snap, n: nat, name: Name, size: nat, maxBytes: nat, dropOldest: bool, writable: bool, ok: bool)
    requires Extends(a.used, b.used) && a.evicted == ready.evicted && a.files == ready.files && b.active == ready.active
    requires name in b.active && forall m :: m in b.active ==> m in a.active || m !in a.used
    requires UsedOk(a.files, a.active, a.used)
    requires Admits(ready, b, n, name, size, maxBytes, dropOldest, writable, ok)
    ensures forall d :: Steady(d, {}, a, b)
  {
    var gone := Order(ready.files, ready.active)[..n];
    assert b.evicted[|a.evicted|..] == gone;
    hide Order, MakesRoom, Fits, OpenBytes, Total;
    forall d ensures Steady(d, {}, a, b) {
      forall f | f in a.files && f.owner == d && f.name !in a.active ensures Somewhere(f, b, |a.evicted|) {
        assert f.name != name;
      }
      forall g | g in b.files && g.name in a.used && g.name !in a.active ensures From(g, a.files, d) {
        assert g.name != name;
      }
    }
  }
}

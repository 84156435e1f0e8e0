/** `record_findings`, `resolve_for_event`, `_resolve_row` and `_normalize_chain` on the rows of one
    dedupe key, in place. */
module DedupeChain {
  import opened Keys
  import opened EpisodeSpec
  import opened InsightChain

  /** Producers that no bound covers: the open slot. */
  ghost function Uncovered(P: set<Key>, B: set<Key>): set<Key> {
    set p | p in P && Earliest(B, p.at).None?
  }

  // ---------------------------------------------------------------- which rows stay

  /** The rows of a chain, by identity, with their bounds. */
  type BoundsByRow = map<Insight, Option<Key>>

  ghost function BoundMap(rows: seq<Insight>): BoundsByRow
    reads rows
  {
    map r | r in rows :: r.bound
  }

  /** No other row had the bound of `r`. */
  ghost predicate Sole(was: BoundsByRow, r: Insight)
    requires r in was
  {
    forall q :: q in was && q != r ==> was[q] != was[r]
  }

  ghost predicate IsOldestOpen(was: BoundsByRow, r: Insight) {
    r in was && was[r].None? && forall q :: q in was && was[q].None? ==> r.created <= q.created
  }

  /** A resolved row whose bound still has members is the row that carries it on. */
  ghost predicate ResolvedKept(was: BoundsByRow, rows: seq<Insight>, P: set<Key>, B: set<Key>)
    reads rows
  {
    forall r :: r in was && was[r].Some? && Sole(was, r) && Members(P, B, {}, was[r]) != {} ==> r in rows && r.bound == was[r]
  }

  /** The open row that was created first is still there: open, or closed at a stored success. */
  ghost predicate OpenKept(was: BoundsByRow, rows: seq<Insight>, S: set<Key>)
    reads rows
  {
    (exists q :: q in was && was[q].None?) ==>
      exists r :: r in rows && IsOldestOpen(was, r) && (r.bound.Some? ==> r.bound.value in S)
  }

  /** What a normalization keeps of the rows it started with. */
  ghost predicate Kept(was: BoundsByRow, rows: seq<Insight>, P: set<Key>, B: set<Key>, S: set<Key>)
    reads rows
  {
    ResolvedKept(was, rows, P, B) && (Uncovered(P, B) != {} ==> OpenKept(was, rows, S))
  }

  /** No row is lost.  An open row may be closed at a stored success, and the bound of a row of `movers` may
      move to an earlier one; every other bound stays. */
  ghost predicate Persists(was: BoundsByRow, rows: seq<Insight>, S: set<Key>, movers: set<Insight>)
    reads rows
  {
    forall r :: r in was ==> r in rows && RowPersists(was, S, movers, r)
  }

  /** Every insight row is still the same object; at most one resolved row has moved its bound. */
  ghost predicate SameInsights(was: BoundsByRow, rows: seq<Insight>, S: set<Key>)
    reads rows
  {
    && Persists(was, rows, S, was.Keys)
    && forall q, r :: q in was && r in was && q in rows && r in rows && Moved(was, q) && Moved(was, r) ==> q == r
  }

  ghost predicate Moved(was: BoundsByRow, r: Insight)
    requires r in was
    reads r
  {
    was[r].Some? && r.bound != was[r]
  }

  lemma StillSame(start: BoundsByRow, was: BoundsByRow, rows: seq<Insight>, S: set<Key>, movers: set<Insight>)
    requires Persists(was, rows, S, movers) && forall q, r :: q in movers && r in movers ==> q == r
    requires forall r :: r in start ==> r in was && was[r] == start[r]
    ensures SameInsights(start, rows, S)
  {
  }

  lemma SuccessPersists(was: BoundsByRow, rows: seq<Insight>, P: set<Key>, B: set<Key>, C: set<Key>, S: set<Key>,
                        row: Insight, first: Key, s: Key)
    requires Inhabited(was, P, B) && row in was && C == MovedTo(B, was[row], s) && s in S
    requires first in P && Earliest(B, first.at) == was[row] && first.at <= s.at && (was[row].Some? ==> Less(s, was[row].value))
    requires Kept(was[row := Some(s)], rows, P, C, S)
    ensures SameInsights(was, rows, S)
  {
    hide Inhabited, Kept, Persists, SameInsights, MovedTo;
    AllPersist(was, rows, P, B, C, S, row, first, s);
    StillSame(was, was, rows, S, {row});
  }

  lemma OwnerIsEarliest(B: set<Key>, first: Key)
    ensures Owner(first.at, B, {}) == Earliest(B, first.at)
  {
  }

  /** The first producer of a row is one that its bound covers. */
  lemma FirstIsCovered(rows: seq<Insight>, P: set<Key>, B: set<Key>, row: Insight)
    requires Partition(rows, P, B, {}) && row in rows
    ensures row.producers != [] && row.producers[0] in P && Earliest(B, row.producers[0].at) == row.bound
  {
    PartitionRow(rows, P, B, {}, row);
    OwnerIsEarliest(B, row.producers[0]);
  }

  ghost predicate RowPersists(was: BoundsByRow, S: set<Key>, movers: set<Insight>, r: Insight)
    requires r in was
    reads r
  {
    || r.bound == was[r]
    || (r.bound.Some? && r.bound.value in S && (was[r].Some? ==> r in movers && Less(r.bound.value, was[r].value)))
  }

  /** Every row has members of its own. */
  ghost predicate Inhabited(was: BoundsByRow, P: set<Key>, B: set<Key>) {
    && (forall r :: r in was ==> Members(P, B, {}, was[r]) != {})
    && (forall q, r :: q in was && r in was && was[q] == was[r] ==> q == r)
  }

  lemma LiveKept(was: BoundsByRow, rows: seq<Insight>, P: set<Key>, B: set<Key>)
    requires Partition(rows, P, B, {})
    requires forall r :: r in rows && r.bound.Some? ==> r in was && was[r] == r.bound
    ensures ResolvedKept(was, rows, P, B)
  {
    forall r | r in was && was[r].Some? && Sole(was, r) && Members(P, B, {}, was[r]) != {} ensures r in rows && r.bound == was[r] {
      var p :| p in Members(P, B, {}, was[r]);
      var q :| q in rows && q.bound == Owner(p.at, B, {});
    }
  }

  lemma MiddleInhabited(rows: seq<Insight>, P: set<Key>, B: set<Key>)
    requires Partition(rows, P, B, {})
    ensures Inhabited(BoundMap(rows), P, B)
  {
    forall r | r in rows ensures Members(P, B, {}, r.bound) != {} {
      assert r.producers[0] in Elements(r.producers);
    }
  }

  /** Moving the bound of `row` down to `m`, or closing it there, leaves every row with members. */
  lemma AllPersist(was: BoundsByRow, rows: seq<Insight>, P: set<Key>, L: set<Key>, C: set<Key>, S: set<Key>,
                   row: Insight, first: Key, m: Key)
    requires Inhabited(was, P, L) && row in was && C == MovedTo(L, was[row], m) && m in S
    requires first in P && Earliest(L, first.at) == was[row] && first.at <= m.at && (was[row].Some? ==> Less(m, was[row].value))
    requires Kept(was[row := Some(m)], rows, P, C, S)
    ensures Persists(was, rows, S, {row})
  {
    hide Members, Uncovered, Live, Inhabited, Sole;
    forall r | r in was ensures r in rows && RowPersists(was, S, {row}, r) {
      hide OpenKept;
      if r == row {
        MovedRow(was, P, L, C, row, first, m);
      } else if was[r].Some? {
        OtherRow(was, P, L, C, row, first, m, r);
      } else {
        OtherOpen(was, P, L, C, row, first, m, r);
        OpenPersists(was, rows, P, L, S, row, m, r);
      }
    }
  }

  lemma OpenPersists(was: BoundsByRow, rows: seq<Insight>, P: set<Key>, L: set<Key>, S: set<Key>, row: Insight, m: Key, r: Insight)
    requires Inhabited(was, P, L) && row in was && r in was && r != row && was[r].None?
    requires OpenKept(was[row := Some(m)], rows, S)
    ensures r in rows && (r.bound.Some? ==> r.bound.value in S)
  {
    var now := was[row := Some(m)];
    assert r in now && now[r].None?;
    var q :| q in rows && IsOldestOpen(now, q) && (q.bound.Some? ==> q.bound.value in S);
    OnlyOpen(was, P, L, q, r);
  }

  lemma OnlyOpen(was: BoundsByRow, P: set<Key>, L: set<Key>, q: Insight, r: Insight)
    requires Inhabited(was, P, L) && q in was && r in was && was[q] == was[r]
    ensures q == r
  {
  }

  lemma MovedRow(was: BoundsByRow, P: set<Key>, L: set<Key>, C: set<Key>, row: Insight, first: Key, m: Key)
    requires Inhabited(was, P, L) && row in was && C == MovedTo(L, was[row], m)
    requires first in P && Earliest(L, first.at) == was[row] && first.at <= m.at && (was[row].Some? ==> Less(m, was[row].value))
    ensures first in Members(P, C, {}, Some(m)) && Sole(was[row := Some(m)], row)
  {
    EarliestIs(C, first.at, m);
  }

  lemma OtherRow(was: BoundsByRow, P: set<Key>, L: set<Key>, C: set<Key>, row: Insight, first: Key, m: Key, r: Insight)
    requires Inhabited(was, P, L) && row in was && C == MovedTo(L, was[row], m)
    requires first in P && Earliest(L, first.at) == was[row] && first.at <= m.at && (was[row].Some? ==> Less(m, was[row].value))
    requires r in was && r != row && was[r].Some?
    ensures Members(P, C, {}, was[r]) != {} && Sole(was[row := Some(m)], r)
  {
    var k := was[r].value;
    var p :| p in Members(P, L, {}, was[r]);
    StillCovers(L, C, was[row], first, m, p, k);
    assert p in Members(P, C, {}, was[r]);
    assert k != m;
  }

  /** A bound other than the one that moves still covers what it covered. */
  lemma StillCovers(L: set<Key>, C: set<Key>, b: Option<Key>, first: Key, m: Key, p: Key, k: Key)
    requires C == MovedTo(L, b, m) && Earliest(L, first.at) == b && first.at <= m.at && (b.Some? ==> Less(m, b.value))
    requires Earliest(L, p.at) == Some(k) && Some(k) != b
    ensures Earliest(C, p.at) == Some(k) && k != m
  {
    assert k in L && k in C;
    EarliestIs(C, p.at, k);
  }

  lemma OtherOpen(was: BoundsByRow, P: set<Key>, L: set<Key>, C: set<Key>, row: Insight, first: Key, m: Key, r: Insight)
    requires Inhabited(was, P, L) && row in was && C == MovedTo(L, was[row], m)
    requires first in P && Earliest(L, first.at) == was[row] && first.at <= m.at && (was[row].Some? ==> Less(m, was[row].value))
    requires r in was && r != row && was[r].None?
    ensures Uncovered(P, C) != {} && r in was[row := Some(m)] && was[row := Some(m)][r].None?
  {
    var p :| p in Members(P, L, {}, None);
    assert Earliest(L, p.at).None?;
    assert p in Uncovered(P, C);
  }

  /** The open row of a partition is the oldest one there was; the resolved rows are those that had members. */
  lemma KeptThen(was: BoundsByRow, middle: BoundsByRow, open: Insight, rows: seq<Insight>, P: set<Key>, B: set<Key>, S: set<Key>)
    requires ResolvedIn(was, middle, P, B) && open in middle && middle[open].None?
    requires (exists r :: r in was && was[r].None?) ==> IsOldestOpen(was, open)
    requires Persists(middle, rows, S, {})
    ensures Kept(was, rows, P, B, S)
  {
  }

  lemma OpenOnlyMoved(was: BoundsByRow, rows: seq<Insight>, S: set<Key>, open: Insight)
    requires Persists(was, rows, S, {open}) && open in was && was[open].None?
    ensures Persists(was, rows, S, {})
  {
  }

  lemma PersistsSame(rows: seq<Insight>, S: set<Key>)
    ensures Persists(BoundMap(rows), rows, S, {})
  {
  }

  lemma RetroPersists(was: BoundsByRow, rows: seq<Insight>, P: set<Key>, B: set<Key>, C: set<Key>, S: set<Key>,
                      open: Insight, first: Key, r: Key)
    requires Inhabited(was, P, B) && open in was && was[open].None? && C == Live(P, B, {}) + {r} && r in S
    requires first in P && Owner(first.at, B, {}).None? && first.at <= r.at
    requires Kept(was[open := Some(r)], rows, P, C, S)
    ensures Persists(was, rows, S, {})
  {
    LiveInhabited(was, P, B, first);
    hide Inhabited, Kept, Persists, Live;
    AllPersist(was, rows, P, Live(P, B, {}), C, S, open, first, r);
    OpenOnlyMoved(was, rows, S, open);
  }

  /** Bounds without members do not matter. */
  lemma LiveInhabited(was: BoundsByRow, P: set<Key>, B: set<Key>, first: Key)
    requires Inhabited(was, P, B) && first in P
    ensures Inhabited(was, P, Live(P, B, {})) && Owner(first.at, Live(P, B, {}), {}) == Owner(first.at, B, {})
  {
    NormalIsTiled(P, B, {});
    forall b ensures Members(P, Live(P, B, {}), {}, b) == Members(P, B, {}, b) {
      assert forall p :: p in P ==> Owner(p.at, Live(P, B, {}), {}) == Owner(p.at, B, {});
    }
  }

  ghost predicate ResolvedIn(was: BoundsByRow, middle: BoundsByRow, P: set<Key>, B: set<Key>) {
    forall r :: r in was && was[r].Some? && Sole(was, r) && Members(P, B, {}, was[r]) != {} ==> r in middle && middle[r] == was[r]
  }

  lemma ResolvedThen(was: BoundsByRow, rows: seq<Insight>, P: set<Key>, B: set<Key>)
    requires ResolvedKept(was, rows, P, B)
    ensures ResolvedIn(was, BoundMap(rows), P, B)
  {
  }

  class Rows {
    var rows: seq<Insight>
    /** Matching success events already in the canonical event table. */
    var stored: set<Key>
    /** Rank the next row will be created with. */
    var nextRank: nat

    constructor (stored: set<Key>)
      ensures rows == [] && this.stored == stored && nextRank == 0
      ensures Valid() && State() == Chain({}, {}, stored)
    {
      rows, this.stored, nextRank := [], stored, 0;
      new;
      assert Live({}, {}, stored) == {};
    }

    ghost function State(): Chain
      reads this, rows
    {
      Chain(ProducersOf(rows), BoundsOf(rows), stored)
    }

    /** The rows are a normalized partition of their own producers at their own bounds. */
    ghost predicate Valid()
      reads this, rows
    {
      Partition(rows, ProducersOf(rows), BoundsOf(rows), stored)
    }

    /** The open row created first, when a dedupe key has any. */
    method OldestOpen() returns (open: Insight?)
      ensures open == null <==> forall r :: r in rows ==> r.bound.Some?
      ensures open != null ==> open in rows && open.bound == None
      ensures open != null ==> forall r :: r in rows && r.bound.None? ==> open.created <= r.created
    {
      open := null;
      var i := 0;
      while i < |rows|
        invariant 0 <= i <= |rows|
        invariant open == null <==> forall r :: r in rows[..i] ==> r.bound.Some?
        invariant open != null ==> open in rows && open.bound == None
        invariant open != null ==> forall r :: r in rows[..i] && r.bound.None? ==> open.created <= r.created
      {
        assert rows[..i + 1] == rows[..i] + [rows[i]];
        if rows[i].bound.None? && (open == null || rows[i].created < open.created) {
          open := rows[i];
        }
        i := i + 1;
      }
      assert rows[..i] == rows;
    }

    /** `_normalize_chain` up to the retroactive lookup: every producer moves to the row whose bound is
        the first at or after it, empty rows are deleted, the rest stays on one open row. */
    method Repartition(ghost P: set<Key>, ghost B: set<Key>) returns (open: Insight?)
      requires Ordered(rows) && P == ProducersOf(rows) && B == BoundsOf(rows) && |P| <= MAX_PRODUCERS
      modifies this, rows
      ensures Partition(rows, P, B, {})
      ensures stored == old(stored)
      ensures forall r :: r in rows ==> r in old(rows) || fresh(r)
      ensures forall r :: r in rows && r.bound.Some? ==> r in old(rows) && r.bound == old(r.bound)
      ensures open != null ==> open in rows && open.bound == None
      ensures open == null <==> Uncovered(P, B) == {}
      ensures open != null ==> var was := old(BoundMap(rows));
        if exists r :: r in was && was[r].None? then IsOldestOpen(was, open) else fresh(open)
      ensures ResolvedKept(old(BoundMap(rows)), rows, P, B)
    {
      hide Plan, Ordered, Distinct, NonDecreasing, Partition, PrevBound, LiveRows, ProducersOf, BoundsOf, ResolvedKept;
      ghost var was := BoundMap(rows);
      var resolved, bounds, assign, slot := PlanRows(P, B);
      var oldest := OldestOpen();
      var live, prev := WriteLive(resolved, bounds, assign);
      open := null;
      if slot != [] {
        open := WriteOpen(oldest, slot, prev);
      }
      LiveFromRows(live, resolved, bounds, assign);
      WrittenIsPartition(live, resolved, bounds, assign, slot, open, P, B);
      UncoveredIsOpen(P, B, bounds, assign, slot);
      rows := if open == null then live else live + [open];
      LiveKept(was, rows, P, B);
    }

    /** Which producer goes where, before anything is written. */
    method PlanRows(ghost P: set<Key>, ghost B: set<Key>)
        returns (resolved: seq<Insight>, bounds: seq<Key>, assign: seq<seq<Key>>, slot: seq<Key>)
      requires Ordered(rows) && P == ProducersOf(rows) && B == BoundsOf(rows) && |P| <= MAX_PRODUCERS
      ensures Plan(P, B, bounds, assign, slot) && |resolved| == |bounds| == |assign| && Distinct(resolved)
      ensures forall i :: 0 <= i < |resolved| ==> resolved[i].bound == Some(bounds[i])
      ensures forall r :: r in resolved <==> r in rows && r.bound.Some?
      ensures forall i :: 0 <= i < |assign| ==> |assign[i]| <= MAX_PRODUCERS && Ascending(assign[i])
      ensures |slot| <= MAX_PRODUCERS && Ascending(slot)
    {
      var ordered := CollectProducers(rows);
      resolved, bounds := SortResolved(rows);
      assign, slot := Assign(ordered, bounds);
      PlanFromSlots(rows, resolved, ordered, bounds, assign, slot, P, B);
      forall i | 0 <= i < |assign| ensures |assign[i]| <= MAX_PRODUCERS && Ascending(assign[i]) {
        SlotSize(assign[i], ordered, bounds, i, P);
      }
      SlotSize(slot, ordered, bounds, |bounds|, P);
    }

    /** The surviving open row, created when the key has none. */
    method WriteOpen(oldest: Insight?, slot: seq<Key>, prev: Option<Key>) returns (open: Insight)
      requires oldest != null ==> oldest.bound == None
      requires |slot| <= MAX_PRODUCERS
      modifies `nextRank, (if oldest == null then {} else {oldest})`openFrom
      modifies (if oldest == null then {} else {oldest})`producers
      ensures if oldest == null then fresh(open) else open == oldest
      ensures open.bound == None && open.openFrom == prev && open.producers == slot
    {
      if oldest == null {
        open := new Insight(nextRank, [], None);
        nextRank := nextRank + 1;
      } else {
        open := oldest;
      }
      open.WriteBack(prev, slot);
    }

    /** `_earliest_resolver`: the earliest stored success at or after the row's first producer. */
    method EarliestResolver(row: Insight) returns (r: Option<Key>)
      requires row.producers != []
      ensures r == Earliest(stored, row.producers[0].at)
    {
      var t := row.producers[0].at;
      var later := set k | k in stored && k.at >= t;
      if later == {} {
        r := None;
        assert Candidates(stored, t) == later;
      } else {
        assert IsLeast(Least(later), later);
        var k :| k in later && forall x :: x in later ==> AtMost(k, x);
        r := Some(k);
        EarliestIs(stored, t, k);
      }
    }

    /** `_normalize_chain`. */
    method NormalizeChain(ghost P: set<Key>, ghost B: set<Key>)
      requires Ordered(rows) && P == ProducersOf(rows) && B == BoundsOf(rows) && |P| <= MAX_PRODUCERS
      modifies this, rows
      ensures Partition(rows, P, B, stored) && stored == old(stored)
      ensures forall r :: r in rows ==> r in old(rows) || fresh(r)
      ensures Kept(old(BoundMap(rows)), rows, P, B, stored)
      decreases |Uncovered(P, B)|, 1
    {
      hide Partition, Ordered, Distinct, ResolvedKept;
      ghost var was := BoundMap(rows);
      var open := Repartition(P, B);
      if open == null {
        PartitionDepends(rows, P, B, {}, B, stored);
      } else {
        assert forall i :: 0 <= i < |rows| ==> rows[i] in old(rows) || fresh(rows[i]);
        ghost var middle := BoundMap(rows);
        ResolvedThen(was, rows, P, B);
        CloseRetroactively(open, P, B);
        KeptThen(was, middle, open, rows, P, B, stored);
      }
    }

    /** The tail of `_normalize_chain`: a success stored past the open row's first producer closes it. */
    method CloseRetroactively(open: Insight, ghost P: set<Key>, ghost B: set<Key>)
      requires Partition(rows, P, B, {}) && open in rows && open.bound == None && |P| <= MAX_PRODUCERS
      modifies this, rows
      ensures Partition(rows, P, B, stored) && stored == old(stored)
      ensures forall r :: r in rows ==> r in old(rows) || fresh(r)
      ensures Persists(old(BoundMap(rows)), rows, stored, {})
      decreases |Uncovered(P, B)|, 0
    {
      hide Partition, Ordered, Distinct, Kept, Inhabited, Persists;
      ghost var was := BoundMap(rows);
      MiddleInhabited(rows, P, B);
      PartitionRow(rows, P, B, {}, open);
      PartitionState(rows, P, B, {});
      var retro := EarliestResolver(open);
      if retro.Some? {
        ghost var C := Live(P, B, {}) + {retro.value};
        RetroShrinks(P, B, open.producers[0], retro.value);
        OpenBounds(rows, open);
        RetroBoundSameOwners(P, B, stored, open.producers[0], retro.value);
        ghost var first := open.producers[0];
        var acted := ResolveRow(open, retro.value, P, C);
        RetroPersists(was, rows, P, B, C, stored, open, first, retro.value);
        PartitionDepends(rows, P, C, stored, B, stored);
      } else {
        PartitionDepends(rows, P, B, {}, B, stored);
        PersistsSame(rows, stored);
      }
    }

    /** `_resolve_row`: move the row's bound to `rkey` when that is earlier, then renormalize. */
    method ResolveRow(row: Insight, rkey: Key, ghost P: set<Key>, ghost C: set<Key>) returns (acted: bool)
      requires Ordered(rows) && row in rows && P == ProducersOf(rows) && |P| <= MAX_PRODUCERS
      requires C == OtherBounds(rows, row) + {rkey}
      modifies this, rows
      ensures acted <==> old(row.producers != [] && row.producers[0].at <= rkey.at
                             && (row.bound.Some? ==> Less(rkey, row.bound.value)))
      ensures acted ==> Partition(rows, P, C, stored) && Kept(old(BoundMap(rows))[row := Some(rkey)], rows, P, C, stored)
      ensures !acted ==> unchanged(this, old(rows))
      ensures stored == old(stored)
      ensures forall r :: r in rows ==> r in old(rows) || fresh(r)
      decreases |Uncovered(P, C)|, 2
    {
      if row.producers == [] || row.producers[0].at > rkey.at {
        return false;
      }
      if row.bound.Some? && AtMost(row.bound.value, rkey) {
        return false;
      }
      ghost var was := BoundMap(rows);
      row.bound := Some(rkey);
      assert BoundMap(rows) == was[row := Some(rkey)];
      ResolvedBounds(rows, row, rkey);
      NormalizeChain(P, C);
      return true;
    }

    lemma ValidIsTiled()
      requires Valid()
      ensures State().Tiled()
      ensures Partition(rows, ProducersOf(rows), BoundsOf(rows), {})
    {
      var P, B := ProducersOf(rows), BoundsOf(rows);
      PartitionState(rows, P, B, stored);
      forall p | p in P && Earliest(B, p.at).None? ensures Earliest(stored, p.at).None? {
        OwnerOfLive(P, B, stored, p);
      }
      PartitionDepends(rows, P, B, stored, B, {});
    }

    /** The greatest bound at or before `f`. */
    method LatestBoundBefore(f: Key) returns (from: Option<Key>)
      ensures from.Some? ==> from.value in BoundsOf(rows) && AtMost(from.value, f)
      ensures forall k :: k in BoundsOf(rows) && AtMost(k, f) ==> from.Some? && AtMost(k, from.value)
    {
      from := None;
      var i := 0;
      while i < |rows|
        invariant 0 <= i <= |rows|
        invariant from.Some? ==> from.value in BoundsOf(rows) && AtMost(from.value, f)
        invariant forall j :: 0 <= j < i && rows[j].bound.Some? && AtMost(rows[j].bound.value, f) ==>
          from.Some? && AtMost(rows[j].bound.value, from.value)
      {
        var b := rows[i].bound;
        if b.Some? && AtMost(b.value, f) && (from.None? || Less(from.value, b.value)) {
          from := b;
        }
        i := i + 1;
      }
      forall k | k in BoundsOf(rows) && AtMost(k, f) ensures from.Some? && AtMost(k, from.value) {
        var r :| r in rows && r.bound == Some(k);
        var j :| 0 <= j < |rows| && rows[j] == r;
      }
    }

    /** `_row_for_position`: the row whose interval contains `key`, or the first row for a key at or
        before every interval start. */
    method RowForPosition(key: Key) returns (row: Insight?)
      requires Valid()
      ensures row != null ==> row in rows && row.bound == Earliest(BoundsOf(rows), key.at)
      ensures row == null ==> Earliest(BoundsOf(rows), key.at).None? && forall r :: r in rows ==> r.bound.Some?
    {
      hide Partition;
      var best: Insight?, first: Insight? := null, null;
      var i := 0;
      while i < |rows|
        invariant 0 <= i <= |rows|
        invariant best != null ==> best in rows && Covers(best, key)
        invariant best == null ==> forall j :: 0 <= j < i ==> !Covers(rows[j], key)
        invariant first != null ==> first in rows
        invariant first == null ==> i == 0
        invariant first != null ==> forall j :: 0 <= j < i ==> !Less(From(rows[j]), From(first))
      {
        if first == null || Less(From(rows[i]), From(first)) {
          first := rows[i];
        }
        if Covers(rows[i], key) && (best == null || Less(From(best), From(rows[i]))) {
          best := rows[i];
        }
        i := i + 1;
      }
      row := if best != null then best
             else if first != null && key.at <= From(first).at then first
             else null;
      CoversIsEarliest(rows, ProducersOf(rows), BoundsOf(rows), stored, key);
      if best == null && first != null {
        ghost var r := FirstRow(rows, ProducersOf(rows), BoundsOf(rows), stored);
        assert !Covers(r, key) && !Less(From(r), From(first));
      }
    }

    /** `record_findings` for one finding: join the row that covers its position, or open a new row at
        the latest bound before it. */
    method RecordFinding(f: Key) returns (row: Insight)
      requires Valid() && |ProducersOf(rows) + {f}| <= MAX_PRODUCERS
      modifies this, rows
      ensures Partition(rows, old(ProducersOf(rows)) + {f}, old(BoundsOf(rows)), {})
      ensures BoundsOf(rows) == old(BoundsOf(rows)) && stored == old(stored)
      ensures row in rows && row.bound == Earliest(old(BoundsOf(rows)), f.at)
      ensures forall i :: 0 <= i < |rows| ==> rows[i] in old(rows) || fresh(rows[i])
      ensures if exists r :: r in old(rows) && old(r.bound) == Earliest(old(BoundsOf(rows)), f.at)
              then row in old(rows) && rows == old(rows)
              else fresh(row) && rows == old(rows) + [row]
      ensures forall r :: r in old(rows) ==> r.bound == old(r.bound)
    {
      hide Partition, ProducersOf, BoundsOf, Live;
      ghost var P, B := ProducersOf(rows), BoundsOf(rows);
      ValidIsTiled();
      PartitionState(rows, P, B, {});
      LiveWith(P, B, f);
      var target := RowForPosition(f);
      if target != null {
        row := target;
        JoinRow(row, f, P, B);
      } else {
        row := OpenRow(f, P, B);
      }
      PartitionState(rows, P + {f}, B, {});
    }

    method JoinRow(row: Insight, f: Key, ghost P: set<Key>, ghost B: set<Key>)
      requires Partition(rows, P, B, {}) && B == Live(P, B, {}) && |P + {f}| <= MAX_PRODUCERS
      requires row in rows && row.bound == Earliest(B, f.at)
      modifies row`producers
      ensures Partition(rows, P + {f}, B, {})
    {
      hide Partition, AllBut, Ordered, Distinct, Live, Members, Previous;
      PartitionRow(rows, P, B, {}, row);
      var ps := InsertSorted(row.producers, f, |row.producers| + 1, KeepEarliest);
      JoinedSize(ps, P, B, f, row.bound);
      AllButFrom(rows, P, B, row);
      Rejoin(row, ps, P, B);
      JoinedRow(rows, P, B, f, row);
    }

    /** Rewriting the producers of one row leaves the others as they were. */
    method Rejoin(row: Insight, ps: seq<Key>, ghost P: set<Key>, ghost B: set<Key>)
      requires row in rows && AllBut(rows, P, B, row) && |ps| <= MAX_PRODUCERS
      modifies row`producers
      ensures AllBut(rows, P, B, row) && row.producers == ps
    {
      row.ApplyProducers(ps);
    }

    method OpenRow(f: Key, ghost P: set<Key>, ghost B: set<Key>) returns (row: Insight)
      requires Partition(rows, P, B, {}) && B == Live(P, B, {}) == BoundsOf(rows)
      requires Earliest(B, f.at).None? && forall r :: r in rows ==> r.bound.Some?
      modifies this
      ensures Partition(rows, P + {f}, B, {}) && stored == old(stored)
      ensures fresh(row) && row.bound == None && rows == old(rows) + [row]
    {
      hide Partition, Live, Members, Previous;
      var from := LatestBoundBefore(f);
      LatestIsPrevious(B, f, from);
      row := new Insight(nextRank, [f], from);
      nextRank := nextRank + 1;
      rows := rows + [row];
      NewRow(old(rows), P, B, f, row);
    }

    /** The resolver lookup after a finding: a success already stored may close the row it joined. */
    method ResolveRecorded(row: Insight, ghost P: set<Key>, ghost B: set<Key>) returns (acted: bool)
      requires Partition(rows, P, B, {}) && P == ProducersOf(rows) && B == BoundsOf(rows) && |P| <= MAX_PRODUCERS
      requires row in rows && row.producers != []
      modifies this, rows
      ensures stored == old(stored)
      ensures var r := Earliest(stored, old(row.producers[0].at));
        && (acted <==> r.Some? && (old(row.bound).Some? ==> Less(r.value, old(row.bound).value)))
        && (acted ==> Partition(rows, P, MovedTo(B, old(row.bound), r.value), stored))
      ensures !acted ==> rows == old(rows) && unchanged(old(rows))
      ensures Persists(old(BoundMap(rows)), rows, stored, if acted then {row} else {})
      ensures forall r :: r in rows ==> r in old(rows) || fresh(r)
    {
      hide Partition, ProducersOf, BoundsOf, OtherBounds, Owner, Members, Live, Uncovered, Ordered, Kept, Inhabited, Persists;
      ghost var was, first := BoundMap(rows), row.producers[0];
      PartitionOrdered(rows, P, B, {});
      OtherBoundsAre(rows, P, B, {}, row);
      MiddleInhabited(rows, P, B);
      PersistsSame(rows, stored);
      FirstIsCovered(rows, P, B, row);
      var r := EarliestResolver(row);
      acted := false;
      if r.Some? {
        acted := ResolveRow(row, r.value, P, MovedTo(B, row.bound, r.value));
        if acted {
          AllPersist(was, rows, P, B, MovedTo(B, was[row], r.value), stored, row, first, r.value);
        }
      }
    }

    /** One failing event of this dedupe key: record, then resolve at a success already stored. */
    method StepFailure(f: Key)
      requires Valid() && |ProducersOf(rows) + {f}| <= MAX_PRODUCERS
      modifies this, rows
      ensures Valid() && State() == OnFailure(old(State()), f)
      ensures SameInsights(old(BoundMap(rows)), rows, stored)
      ensures forall r :: r in rows ==> r in old(rows) || fresh(r)
    {
      hide Partition, ProducersOf, BoundsOf, OnFailure, Normal, OtherBounds, Owner, Members, Live, Uncovered, Ordered, Ascending, Kept, Inhabited, Persists, SameInsights;
      ghost var start := BoundMap(rows);
      ghost var c := State();
      ghost var P, B := c.producers + {f}, c.bounds;
      ValidIsTiled();
      var row := RecordFinding(f);
      PartitionRow(rows, P, B, {}, row);
      PartitionState(rows, P, B, {});
      ghost var r := Earliest(stored, row.producers[0].at);
      FailureOutcome(c, f, row.producers[0], r, row.bound);
      ghost var C := if r.Some? then MovedTo(B, row.bound, r.value) else B;
      ghost var was := BoundMap(rows);
      var acted := ResolveRecorded(row, P, B);
      if !acted {
        C := B;
        PartitionDepends(rows, P, B, {}, B, stored);
      }
      StillSame(start, was, rows, stored, if acted then {row} else {});
      PartitionValid(rows, P, C, stored);
    }

    /** Rows a success at `s` may close: open rows, and resolved rows whose interval holds it. */
    method Targets(s: Key) returns (targets: seq<Insight>)
      requires Distinct(rows)
      ensures Distinct(targets)
      ensures forall r :: r in targets <==> r in rows && (r.bound.None? || StartsBefore(r, s))
      ensures forall i, j :: 0 <= i < j < |targets| && targets[i].bound.Some? ==> targets[j].bound.Some?
    {
      var open: seq<Insight>, resolved: seq<Insight> := [], [];
      var i := 0;
      while i < |rows|
        invariant 0 <= i <= |rows|
        invariant Distinct(open) && Distinct(resolved)
        invariant forall r :: r in open <==> r in rows[..i] && r.bound.None?
        invariant forall r :: r in resolved <==> r in rows[..i] && r.bound.Some? && StartsBefore(r, s)
      {
        assert rows[..i + 1] == rows[..i] + [rows[i]];
        if rows[i].bound.None? {
          open := open + [rows[i]];
        } else if StartsBefore(rows[i], s) {
          resolved := resolved + [rows[i]];
        }
        i := i + 1;
      }
      assert rows[..i] == rows;
      targets := open + resolved;
      DistinctSum(open, resolved);
    }

    /** The loop over the targets: only the last one can close. */
    method CloseTargets(targets: seq<Insight>, s: Key, ghost P: set<Key>, ghost B: set<Key>) returns (resolved: nat)
      requires Partition(rows, P, B, {}) && B == BoundsOf(rows) && P == ProducersOf(rows) && |P| <= MAX_PRODUCERS
      requires forall t :: t in targets ==> t in rows
      requires forall i :: 0 <= i < |targets| - 1 ==> !Closes(targets[i], s)
      modifies this, rows
      ensures stored == old(stored)
      ensures resolved > 0 <==> targets != [] && old(Closes(targets[|targets| - 1], s))
      ensures resolved == 0 ==> rows == old(rows) && unchanged(old(rows))
      ensures resolved > 0 ==>
        var row := targets[|targets| - 1]; var C := MovedTo(B, old(row.bound), s);
        Partition(rows, P, C, stored) && Kept(old(BoundMap(rows))[row := Some(s)], rows, P, C, stored)
      ensures forall r :: r in rows ==> r in old(rows) || fresh(r)
    {
      hide Partition, ProducersOf, BoundsOf, OtherBounds, Members, Live, Uncovered, Ordered, Distinct, Kept;
      resolved := 0;
      var i := 0;
      while i < |targets|
        invariant 0 <= i <= |targets| && stored == old(stored)
        invariant i < |targets| || resolved == 0 ==> resolved == 0 && rows == old(rows) && unchanged(old(rows))
        invariant i == |targets| ==> (resolved > 0 <==> targets != [] && old(Closes(targets[|targets| - 1], s)))
        invariant resolved > 0 ==>
          var row := targets[|targets| - 1]; var C := MovedTo(B, old(row.bound), s);
          Partition(rows, P, C, stored) && Kept(old(BoundMap(rows))[row := Some(s)], rows, P, C, stored)
        invariant forall r :: r in rows ==> r in old(rows) || fresh(r)
      {
        PartitionOrdered(rows, P, B, {});
        OtherBoundsAre(rows, P, B, {}, targets[i]);
        var acted := ResolveRow(targets[i], s, P, MovedTo(B, targets[i].bound, s));
        if acted {
          resolved := resolved + 1;
        }
        i := i + 1;
      }
    }

    /** `resolve_for_event`: a success of this dedupe key, already stored, closes what it resolves. */
    method StepSuccess(s: Key)
      requires Valid() && |ProducersOf(rows)| <= MAX_PRODUCERS
      requires s.at > MIN_KEY.at
      modifies this, rows
      ensures Valid() && State() == OnSuccess(old(State()), s)
      ensures SameInsights(old(BoundMap(rows)), rows, stored)
      ensures forall r :: r in rows ==> r in old(rows) || fresh(r)
    {
      hide Partition, ProducersOf, BoundsOf, OnSuccess, Normal, OtherBounds, Members, Live, Uncovered, Ordered, Distinct, Kept, Inhabited, Persists, SameInsights;
      ghost var was := BoundMap(rows);
      ghost var c := State();
      ghost var P, B := c.producers, c.bounds;
      ValidIsTiled();
      PartitionState(rows, P, B, {});
      PartitionOrdered(rows, P, B, {});
      stored := stored + {s};
      var targets := Targets(s);
      TargetsAre(rows, P, B, s, targets);
      ghost var last := if targets == [] then None else targets[|targets| - 1].bound;
      ghost var C := MovedTo(B, last, s);
      SuccessOutcome(rows, c, s, targets);
      MiddleInhabited(rows, P, B);
      PersistsSame(rows, stored);
      ghost var first := MIN_KEY;
      if targets != [] {
        FirstIsCovered(rows, P, B, targets[|targets| - 1]);
        first := targets[|targets| - 1].producers[0];
      }
      var resolved := CloseTargets(targets, s, P, B);
      hide Closes, StartsBefore, MovedTo;
      if resolved == 0 {
        PartitionDepends(rows, P, B, {}, B, stored);
        C := B;
        StillSame(was, was, rows, stored, {});
      } else {
        SuccessPersists(was, rows, P, B, C, stored, targets[|targets| - 1], first, s);
      }
      PartitionValid(rows, P, C, stored);
    }

    /** What a normalized chain means in terms of its own rows: each producer is on exactly one row, the
        one whose interval holds it; at most one row is open, with no stored success at or after its
        first producer. */
    lemma ValidIntervals()
      requires Valid()
      ensures forall r, p :: r in rows && p in ProducersOf(rows) ==> (p in r.producers <==> Covers(r, p))
      ensures forall p :: p in ProducersOf(rows) ==> exists r :: r in rows && p in r.producers
      ensures forall q, r, p :: q in rows && r in rows && p in q.producers && p in r.producers ==> q == r
      ensures forall q, r :: q in rows && r in rows && q.bound.None? && r.bound.None? ==> q == r
      ensures forall r, s :: r in rows && r.bound.None? && s in stored ==> r.producers != [] && s.at < r.producers[0].at
    {
      hide Partition, Covers, BoundsOf;
      ValidIsTiled();
      MembersCovered(rows, ProducersOf(rows), BoundsOf(rows));
      OneRowEach(rows, ProducersOf(rows), BoundsOf(rows), stored);
      forall r | r in rows && r.bound.None?
        ensures r.producers != [] && forall s :: s in stored ==> s.at < r.producers[0].at
      {
        NothingStoredAfter(rows, ProducersOf(rows), BoundsOf(rows), stored, r);
      }
    }
  }

  lemma MembersCovered(rows: seq<Insight>, P: set<Key>, B: set<Key>)
    requires Partition(rows, P, B, {}) && B == BoundsOf(rows)
    ensures forall r, p :: r in rows && p in P ==> (p in r.producers <==> Covers(r, p))
  {
    forall r, p | r in rows && p in P ensures p in r.producers <==> Covers(r, p) {
      CoversIsEarliest(rows, P, B, {}, p);
      hide Covers, BoundsOf;
      RowMembers(rows, P, B, {}, r);
      assert p in r.producers <==> p in Elements(r.producers);
    }
  }

  lemma RowMembers(rows: seq<Insight>, P: set<Key>, B: set<Key>, S: set<Key>, r: Insight)
    requires Partition(rows, P, B, S) && r in rows
    ensures Elements(r.producers) == Members(P, B, S, r.bound)
  {
  }

  lemma OneRowEach(rows: seq<Insight>, P: set<Key>, B: set<Key>, S: set<Key>)
    requires Partition(rows, P, B, S)
    ensures forall q, r :: q in rows && r in rows && q.bound == r.bound ==> q == r
    ensures forall q, r, p :: q in rows && r in rows && p in q.producers && p in r.producers ==> q == r
  {
    forall q, r, p | q in rows && r in rows && p in q.producers && p in r.producers ensures q == r {
      RowMembers(rows, P, B, S, q);
      RowMembers(rows, P, B, S, r);
      assert p in Elements(q.producers) && p in Elements(r.producers);
    }
  }

  lemma NothingStoredAfter(rows: seq<Insight>, P: set<Key>, B: set<Key>, S: set<Key>, r: Insight)
    requires Partition(rows, P, B, S) && r in rows && r.bound.None?
    ensures r.producers != [] && forall s :: s in S ==> s.at < r.producers[0].at
  {
    PartitionRow(rows, P, B, S, r);
    hide Partition;
    assert Earliest(S, r.producers[0].at).None?;
  }

  predicate SameContent(q: Insight, r: Insight)
    reads q, r
  {
    q.bound == r.bound && q.openFrom == r.openFrom && q.producers == r.producers
  }

  /** Which row held which producer beforehand leaves no trace: a partition is determined by the
      producers, the bounds and the stored successes. */
  lemma PartitionDetermined(rows: seq<Insight>, others: seq<Insight>, P: set<Key>, B: set<Key>, S: set<Key>)
    requires Partition(rows, P, B, S) && Partition(others, P, B, S)
    ensures forall r :: r in rows ==> exists q :: q in others && SameContent(q, r)
  {
    forall r | r in rows ensures exists q :: q in others && SameContent(q, r) {
      PartitionRow(rows, P, B, S, r);
      var q :| q in others && q.bound == Owner(r.producers[0].at, B, S);
      TwinRow(rows, others, P, B, S, r, q);
    }
  }

  lemma TwinRow(rows: seq<Insight>, others: seq<Insight>, P: set<Key>, B: set<Key>, S: set<Key>, r: Insight, q: Insight)
    requires Partition(rows, P, B, S) && Partition(others, P, B, S)
    requires r in rows && q in others && q.bound == r.bound
    ensures SameContent(q, r)
  {
    RowMembers(rows, P, B, S, r);
    RowMembers(others, P, B, S, q);
    AscendingUnique(q.producers, r.producers);
  }

  /** The filter of `resolve_for_event` on resolved rows. */
  predicate StartsBefore(r: Insight, s: Key)
    reads r
  {
    r.bound.Some? && From(r).at < s.at <= r.bound.value.at
  }

  /** The guards of `_resolve_row` all pass. */
  predicate Closes(r: Insight, s: Key)
    reads r
  {
    r.producers != [] && r.producers[0].at <= s.at && (r.bound.Some? ==> Less(s, r.bound.value))
  }

  lemma DistinctSum(a: seq<Insight>, b: seq<Insight>)
    requires Distinct(a) && Distinct(b) && forall r :: r in a ==> r !in b
    ensures Distinct(a + b)
    ensures forall r :: r in a + b <==> r in a || r in b
  {
    forall i, j | 0 <= i < j < |a + b| ensures (a + b)[i] != (a + b)[j] {
      if i < |a| <= j { assert a[i] in a && b[j - |a|] in b; }
    }
  }

  lemma PartitionOrdered(rows: seq<Insight>, P: set<Key>, B: set<Key>, S: set<Key>)
    requires Partition(rows, P, B, S)
    ensures Ordered(rows) && Distinct(rows)
  {
  }

  /** On a partition at most one resolved row is a target, and only the last target can close. */
  lemma TargetsAre(rows: seq<Insight>, P: set<Key>, B: set<Key>, s: Key, targets: seq<Insight>)
    requires Partition(rows, P, B, {}) && B == BoundsOf(rows) && s.at > MIN_KEY.at
    requires Distinct(targets)
    requires forall r :: r in targets <==> r in rows && (r.bound.None? || StartsBefore(r, s))
    requires forall i, j :: 0 <= i < j < |targets| && targets[i].bound.Some? ==> targets[j].bound.Some?
    ensures targets != [] ==> targets[|targets| - 1].bound == Earliest(B, s.at)
    ensures forall i :: 0 <= i < |targets| - 1 ==> !Closes(targets[i], s)
    ensures targets == [] ==> Earliest(B, s.at).None? && forall r :: r in rows ==> r.bound.Some?
  {
    hide Partition;
    TargetBounds(rows, P, B, s);
    if Earliest(B, s.at).Some? {
      var hit :| hit in rows && hit.bound == Earliest(B, s.at);
      assert hit in targets;
    }
    hide BoundsOf, StartsBefore, Closes, Distinct;
    assert forall t :: t in targets ==> t in rows && (t.bound.None? || t.bound == Earliest(B, s.at));
    forall i | 0 <= i < |targets| - 1 ensures !Closes(targets[i], s) {
      DistinctPair(targets, i);
      OnlyOneOpen(rows, P, B, s, targets[i], targets[i + 1]);
    }
    if targets != [] { assert targets[|targets| - 1] in targets; }
  }

  lemma DistinctPair(targets: seq<Insight>, i: nat)
    requires Distinct(targets) && i + 1 < |targets|
    ensures targets[i] != targets[i + 1] && targets[i] in targets && targets[i + 1] in targets
  {
  }

  lemma TargetBounds(rows: seq<Insight>, P: set<Key>, B: set<Key>, s: Key)
    requires Partition(rows, P, B, {}) && B == BoundsOf(rows) && s.at > MIN_KEY.at
    ensures forall r :: r in rows && r.bound.Some? ==> (StartsBefore(r, s) <==> r.bound == Earliest(B, s.at))
  {
    CoversIsEarliest(rows, P, B, {}, s);
    hide Partition;
    assert forall r :: r in rows && r.bound.Some? ==> (StartsBefore(r, s) <==> Covers(r, s));
  }

  /** Two targets: an open row, whose producers all come after `s`, and the resolved row holding `s`. */
  lemma OnlyOneOpen(rows: seq<Insight>, P: set<Key>, B: set<Key>, s: Key, q: Insight, r: Insight)
    requires Partition(rows, P, B, {}) && q in rows && r in rows && q != r
    requires q.bound.Some? ==> r.bound.Some?
    requires q.bound.None? || q.bound == Earliest(B, s.at)
    requires r.bound.None? || r.bound == Earliest(B, s.at)
    ensures !Closes(q, s)
  {
    PartitionRow(rows, P, B, {}, q);
  }

  /** Reading `OnSuccess` off the last target. */
  lemma SuccessOutcome(rows: seq<Insight>, c: Chain, s: Key, targets: seq<Insight>)
    requires c.Tiled() && Partition(rows, c.producers, c.bounds, {})
    requires forall r :: r in targets ==> r in rows
    requires targets != [] ==> targets[|targets| - 1].bound == Earliest(c.bounds, s.at)
    requires targets == [] ==> Earliest(c.bounds, s.at).None? && forall r :: r in rows ==> r.bound.Some?
    ensures targets != [] && Closes(targets[|targets| - 1], s) ==>
      OnSuccess(c, s) == Normal(c.producers, MovedTo(c.bounds, Earliest(c.bounds, s.at), s), c.stored + {s})
    ensures !(targets != [] && Closes(targets[|targets| - 1], s)) ==>
      && OnSuccess(c, s) == Normal(c.producers, c.bounds, c.stored + {s})
      && forall p :: p in c.producers ==> Owner(p.at, c.bounds, {}) == Owner(p.at, c.bounds, c.stored + {s})
  {
    if targets == [] {
      NobodyOpen(rows, c.producers, c.bounds);
      forall p | p in c.producers ensures Earliest(c.bounds, p.at).Some? {
        assert p !in Members(c.producers, c.bounds, {}, None);
      }
    } else {
      var row := targets[|targets| - 1];
      assert row in targets;
      PartitionRow(rows, c.producers, c.bounds, {}, row);
      hide Partition;
      if row.bound.Some? {
        ClosedOutcome(c, s, row.producers[0], row.bound.value);
      } else {
        StillOpenOutcome(c, s, row.producers[0]);
      }
    }
  }

  lemma ClosedOutcome(c: Chain, s: Key, first: Key, b: Key)
    requires c.Tiled() && Earliest(c.bounds, s.at) == Some(b)
    requires first in c.producers && Owner(first.at, c.bounds, {}) == Some(b)
    requires forall p :: p in c.producers && Owner(p.at, c.bounds, {}) == Some(b) ==> AtMost(first, p)
    ensures first.at <= s.at && Less(s, b) ==>
      OnSuccess(c, s) == Normal(c.producers, MovedTo(c.bounds, Some(b), s), c.stored + {s})
    ensures !(first.at <= s.at && Less(s, b)) ==> OnSuccess(c, s) == Normal(c.producers, c.bounds, c.stored + {s})
    ensures forall p :: p in c.producers ==> Owner(p.at, c.bounds, {}) == Owner(p.at, c.bounds, c.stored + {s})
  {
    assert first in Row(c.producers, c.bounds, b);
    assert Least(Row(c.producers, c.bounds, b)) == first;
    CoveredSuccessTiled(c, s, b);
  }

  lemma StillOpenOutcome(c: Chain, s: Key, first: Key)
    requires c.Tiled() && Earliest(c.bounds, s.at).None?
    requires first in c.producers && Owner(first.at, c.bounds, {}) == None
    requires forall p :: p in c.producers && Owner(p.at, c.bounds, {}) == None ==> AtMost(first, p)
    ensures OnSuccess(c, s) == Normal(c.producers, c.bounds, c.stored + {s})
    ensures first.at <= s.at ==> OnSuccess(c, s) == Normal(c.producers, MovedTo(c.bounds, None, s), c.stored + {s})
    ensures first.at > s.at ==>
      forall p :: p in c.producers ==> Owner(p.at, c.bounds, {}) == Owner(p.at, c.bounds, c.stored + {s})
  {
    var P, B, S := c.producers, c.bounds, c.stored + {s};
    TiledBounds(c);
    if first.at <= s.at {
      EarliestIs(S, first.at, s);
      RetroBoundSameOwners(P, B, S, first, s);
      SameOwnersSameRows(P, B, B + {s}, S);
    }
  }

  /** The bounds after one row is resolved, or re-resolved, at `m`. */
  ghost function MovedTo(B: set<Key>, b: Option<Key>, m: Key): set<Key> {
    if b.Some? then B - {b.value} + {m} else B + {m}
  }

  lemma OtherBoundsAre(rows: seq<Insight>, P: set<Key>, B: set<Key>, S: set<Key>, row: Insight)
    requires Partition(rows, P, B, S) && row in rows
    ensures OtherBounds(rows, row) == if row.bound.Some? then BoundsOf(rows) - {row.bound.value} else BoundsOf(rows)
  {
    forall k ensures k in OtherBounds(rows, row) <==> k in BoundsOf(rows) && Some(k) != row.bound {
      if k in BoundsOf(rows) {
        var r :| r in rows && r.bound == Some(k);
      }
    }
  }

  /** A partition is one of its own producers and bounds. */
  lemma PartitionValid(rows: seq<Insight>, P: set<Key>, B: set<Key>, S: set<Key>)
    requires Partition(rows, P, B, S)
    ensures Partition(rows, ProducersOf(rows), BoundsOf(rows), S)
    ensures Chain(ProducersOf(rows), BoundsOf(rows), S) == Normal(P, B, S)
  {
    PartitionState(rows, P, B, S);
    NormalIsTiled(P, B, S);
    PartitionDepends(rows, P, B, S, Live(P, B, S), S);
  }

  /** Reading `OnFailure` off the row that the finding joined. */
  lemma FailureOutcome(c: Chain, f: Key, first: Key, r: Option<Key>, b: Option<Key>)
    requires c.Tiled() && b == Earliest(c.bounds, f.at)
    requires first in c.producers + {f} && Owner(first.at, c.bounds, {}) == b
    requires forall p :: p in c.producers + {f} && Owner(p.at, c.bounds, {}) == b ==> AtMost(first, p)
    requires r == Earliest(c.stored, first.at)
    ensures r.Some? && (b.Some? ==> Less(r.value, b.value)) ==>
      OnFailure(c, f) == Normal(c.producers + {f}, MovedTo(c.bounds, b, r.value), c.stored)
    ensures !(r.Some? && (b.Some? ==> Less(r.value, b.value))) ==>
      && OnFailure(c, f) == Normal(c.producers + {f}, c.bounds, c.stored)
      && forall p :: p in c.producers + {f} ==> Owner(p.at, c.bounds, {}) == Owner(p.at, c.bounds, c.stored)
  {
    match b
    case Some(x) => JoinedOutcome(c, f, first, r, x); CoveredOwners(c, f);
    case None => OpenOutcome(c, f, first, r);
  }

  lemma JoinedOutcome(c: Chain, f: Key, first: Key, r: Option<Key>, x: Key)
    requires c.Tiled() && Earliest(c.bounds, f.at) == Some(x)
    requires first in c.producers + {f} && Owner(first.at, c.bounds, {}) == Some(x)
    requires forall p :: p in c.producers + {f} && Owner(p.at, c.bounds, {}) == Some(x) ==> AtMost(first, p)
    requires r == Earliest(c.stored, first.at)
    ensures r.Some? && Less(r.value, x) ==>
      OnFailure(c, f) == Normal(c.producers + {f}, MovedTo(c.bounds, Some(x), r.value), c.stored)
    ensures !(r.Some? && Less(r.value, x)) ==> OnFailure(c, f) == Normal(c.producers + {f}, c.bounds, c.stored)
  {
    var P, B := c.producers + {f}, c.bounds;
    assert first in Row(P, B, x);
    assert Least(Row(P, B, x)) == first;
    LiveWithCovered(c.producers, B, c.stored, f);
  }

  lemma CoveredOwners(c: Chain, f: Key)
    requires c.Tiled() && Earliest(c.bounds, f.at).Some?
    ensures forall p :: p in c.producers + {f} ==> Owner(p.at, c.bounds, {}) == Owner(p.at, c.bounds, c.stored)
  {
  }

  lemma TiledBounds(c: Chain)
    requires c.Tiled()
    ensures c.bounds == Live(c.producers, c.bounds, {})
  {
    forall p | p in c.producers ensures Owner(p.at, c.bounds, {}) == Owner(p.at, c.bounds, c.stored) {}
    assert forall k :: k in Live(c.producers, c.bounds, {}) <==> k in Live(c.producers, c.bounds, c.stored);
  }

  lemma OpenOutcome(c: Chain, f: Key, first: Key, r: Option<Key>)
    requires c.Tiled() && Earliest(c.bounds, f.at).None?
    requires first in c.producers + {f} && Owner(first.at, c.bounds, {}) == None
    requires forall p :: p in c.producers + {f} && Owner(p.at, c.bounds, {}) == None ==> AtMost(first, p)
    requires r == Earliest(c.stored, first.at)
    ensures OnFailure(c, f) == Normal(c.producers + {f}, c.bounds, c.stored)
    ensures r.Some? ==> OnFailure(c, f) == Normal(c.producers + {f}, MovedTo(c.bounds, None, r.value), c.stored)
    ensures r.None? ==>
      forall p :: p in c.producers + {f} ==> Owner(p.at, c.bounds, {}) == Owner(p.at, c.bounds, c.stored)
  {
    var P, B, S := c.producers + {f}, c.bounds, c.stored;
    TiledBounds(c);
    LiveWith(c.producers, B, f);
    if r.Some? {
      RetroBoundSameOwners(P, B, S, first, r.value);
      SameOwnersSameRows(P, B, B + {r.value}, S);
    }
  }

  /** The position where the row's interval starts, `_MIN_KEY` for the first row. */
  function From(r: Insight): Key
    reads r
  {
    if r.openFrom.Some? then r.openFrom.value else MIN_KEY
  }

  /** The row's interval `(openFrom, bound]`, compared by instant, contains `key`. */
  predicate Covers(r: Insight, key: Key)
    reads r
  {
    && !(r.openFrom.Some? && key.at <= r.openFrom.value.at)
    && !(r.bound.Some? && key.at > r.bound.value.at)
  }

  /** On a partition, intervals and owners agree. */
  lemma CoversIsEarliest(rows: seq<Insight>, P: set<Key>, B: set<Key>, S: set<Key>, key: Key)
    requires Partition(rows, P, B, S) && B == BoundsOf(rows)
    ensures forall r :: r in rows ==> (Covers(r, key) <==> r.bound == Earliest(B, key.at))
  {
    PartitionState(rows, P, B, S);
    forall r | r in rows ensures Covers(r, key) <==> r.bound == Earliest(B, key.at) {
      assert r.bound.Some? ==> r.bound.value in B;
      IntervalIsEarliest(B, r.openFrom, r.bound, key.at);
    }
  }

  lemma IntervalIsEarliest(B: set<Key>, from: Option<Key>, bound: Option<Key>, t: nat)
    requires from == Previous(B, bound) && (bound.Some? ==> bound.value in B)
    ensures (from.Some? ==> t > from.value.at) && (bound.Some? ==> t <= bound.value.at) <==> bound == Earliest(B, t)
  {
    if (from.Some? ==> t > from.value.at) && (bound.Some? ==> t <= bound.value.at) && bound.Some? {
      forall x | x in B && x.at >= t ensures AtMost(bound.value, x) {
        assert Less(x, bound.value) ==> from.Some? && AtMost(x, from.value);
      }
      EarliestIs(B, t, bound.value);
    }
  }

  /** Some row starts at the beginning of history. */
  lemma FirstRow(rows: seq<Insight>, P: set<Key>, B: set<Key>, S: set<Key>) returns (r: Insight)
    requires Partition(rows, P, B, S) && B == BoundsOf(rows) && rows != []
    ensures r in rows && r.openFrom == None
  {
    PartitionState(rows, P, B, S);
    hide Partition;
    r := rows[0];
    if B != {} {
      r :| r in rows && r.bound == Some(Least(B));
    }
    RowStart(rows, P, B, S, r);
    NothingBefore(B, r.bound);
  }

  lemma RowStart(rows: seq<Insight>, P: set<Key>, B: set<Key>, S: set<Key>, r: Insight)
    requires Partition(rows, P, B, S) && B == Live(P, B, S) && r in rows
    ensures r.openFrom == Previous(B, r.bound)
  {
  }

  lemma NothingBefore(B: set<Key>, b: Option<Key>)
    requires B != {} ==> b == Some(Least(B))
    ensures Previous(B, b) == None
  {
  }

  /** Every row but `row` still matches the partition. */
  ghost predicate AllBut(rows: seq<Insight>, P: set<Key>, B: set<Key>, row: Insight)
    reads rows
  {
    && Distinct(rows)
    && (forall r :: r in rows && r != row ==>
          Ascending(r.producers) && r.producers != [] && Elements(r.producers) == Members(P, B, {}, r.bound))
    && (forall r :: r in rows ==> r.openFrom == Previous(Live(P, B, {}), r.bound))
    && (forall q, r :: q in rows && r in rows && q.bound == r.bound ==> q == r)
    && (forall p :: p in P ==> exists r :: r in rows && r.bound == Owner(p.at, B, {}))
  }

  lemma AllButFrom(rows: seq<Insight>, P: set<Key>, B: set<Key>, row: Insight)
    requires Partition(rows, P, B, {})
    ensures AllBut(rows, P, B, row)
  {
  }

  lemma JoinedSize(ps: seq<Key>, P: set<Key>, B: set<Key>, f: Key, b: Option<Key>)
    requires Ascending(ps) && Elements(ps) == Members(P, B, {}, b) + {f} && |P + {f}| <= MAX_PRODUCERS
    ensures |ps| <= MAX_PRODUCERS
  {
    AscendingSize(ps);
    SubsetSize(Elements(ps), P + {f});
  }

  /** A finding at `f` changes the members of its own row only. */
  lemma MembersWith(P: set<Key>, B: set<Key>, f: Key)
    ensures forall b :: Members(P + {f}, B, {}, b) ==
              (if b == Owner(f.at, B, {}) then Members(P, B, {}, b) + {f} else Members(P, B, {}, b))
  {
    forall b ensures Members(P + {f}, B, {}, b) ==
                (if b == Owner(f.at, B, {}) then Members(P, B, {}, b) + {f} else Members(P, B, {}, b))
    {
      assert forall p :: p in Members(P + {f}, B, {}, b) <==>
        p in Members(P, B, {}, b) || (p == f && b == Owner(f.at, B, {}));
    }
  }

  lemma JoinedRow(rows: seq<Insight>, P: set<Key>, B: set<Key>, f: Key, row: Insight)
    requires AllBut(rows, P, B, row) && row in rows && row.bound == Earliest(B, f.at)
    requires B == Live(P, B, {})
    requires Ascending(row.producers) && row.producers != []
    requires Elements(row.producers) == Members(P, B, {}, row.bound) + {f}
    ensures Partition(rows, P + {f}, B, {})
  {
    MembersWith(P, B, f);
    LiveWith(P, B, f);
  }

  lemma LiveWith(P: set<Key>, B: set<Key>, f: Key)
    requires B == Live(P, B, {})
    ensures Live(P + {f}, B, {}) == B
  {
    if Earliest(B, f.at).Some? {
      LiveWithCovered(P, B, {}, f);
    } else {
      assert forall k :: k in Live(P + {f}, B, {}) <==> k in Live(P, B, {});
    }
  }

  lemma LatestIsPrevious(B: set<Key>, f: Key, from: Option<Key>)
    requires Earliest(B, f.at).None?
    requires from.Some? ==> from.value in B && AtMost(from.value, f)
    requires forall k :: k in B && AtMost(k, f) ==> from.Some? && AtMost(k, from.value)
    ensures from == Previous(B, None)
  {
    assert forall k :: k in B ==> AtMost(k, f);
  }

  lemma NewRow(rows: seq<Insight>, P: set<Key>, B: set<Key>, f: Key, row: Insight)
    requires Partition(rows, P, B, {}) && row !in rows && B == Live(P, B, {})
    requires Earliest(B, f.at).None? && forall r :: r in rows ==> r.bound != None
    requires row.bound == None && row.producers == [f] && row.openFrom == Previous(B, None)
    ensures Partition(rows + [row], P + {f}, B, {})
  {
    hide Members, Previous, Live, Partition;
    LiveWith(P, B, f);
    OldRows(rows, P, B);
    NewRowMembers(rows, P, B, f);
    NewRowCovers(rows, P, B, f, row);
    assert Elements([f]) == {f};
    RowsPartition(rows, row, rows + [row], P + {f}, B);
  }

  lemma OldRows(rows: seq<Insight>, P: set<Key>, B: set<Key>)
    requires Partition(rows, P, B, {})
    ensures Distinct(rows)
    ensures forall r :: r in rows ==> r.producers != [] && Ascending(r.producers)
    ensures forall r :: r in rows ==> r.openFrom == Previous(Live(P, B, {}), r.bound)
    ensures forall q, r :: q in rows && r in rows && q.bound == r.bound ==> q == r
  {
  }

  lemma NewRowCovers(rows: seq<Insight>, P: set<Key>, B: set<Key>, f: Key, row: Insight)
    requires Partition(rows, P, B, {}) && Earliest(B, f.at).None? && row.bound == None
    ensures forall p :: p in P + {f} ==> exists r :: r in rows + [row] && r.bound == Owner(p.at, B, {})
  {
    forall p | p in P + {f} ensures exists r :: r in rows + [row] && r.bound == Owner(p.at, B, {}) {
      if p in P {
        var r :| r in rows && r.bound == Owner(p.at, B, {});
        assert r in rows + [row];
      } else {
        assert row in rows + [row];
      }
    }
  }

  lemma NewRowMembers(rows: seq<Insight>, P: set<Key>, B: set<Key>, f: Key)
    requires Partition(rows, P, B, {}) && Earliest(B, f.at).None? && forall r :: r in rows ==> r.bound != None
    ensures Members(P + {f}, B, {}, None) == {f}
    ensures forall r :: r in rows ==> Elements(r.producers) == Members(P + {f}, B, {}, r.bound)
  {
    MembersWith(P, B, f);
    NobodyOpen(rows, P, B);
  }

  lemma NobodyOpen(rows: seq<Insight>, P: set<Key>, B: set<Key>)
    requires Partition(rows, P, B, {}) && forall r :: r in rows ==> r.bound != None
    ensures Members(P, B, {}, None) == {}
  {
    forall p | p in P ensures Owner(p.at, B, {}) != None {
      var r :| r in rows && r.bound == Owner(p.at, B, {});
    }
  }

  /** Bounds of the resolved rows other than `row`. */
  ghost function OtherBounds(rows: seq<Insight>, row: Insight): set<Key>
    reads rows
  {
    set r | r in rows && r != row && r.bound.Some? :: r.bound.value
  }

  lemma OpenBounds(rows: seq<Insight>, row: Insight)
    requires row.bound == None
    ensures OtherBounds(rows, row) == BoundsOf(rows)
  {
    assert forall k :: k in OtherBounds(rows, row) <==> k in BoundsOf(rows);
  }

  lemma ResolvedBounds(rows: seq<Insight>, row: Insight, b: Key)
    requires row in rows && row.bound == Some(b)
    ensures BoundsOf(rows) == OtherBounds(rows, row) + {b}
  {
    assert forall k :: k in BoundsOf(rows) <==> k in OtherBounds(rows, row) || k == b;
  }

  lemma PartitionRow(rows: seq<Insight>, P: set<Key>, B: set<Key>, S: set<Key>, row: Insight)
    requires Partition(rows, P, B, S) && row in rows
    ensures Ordered(rows) && Ascending(row.producers) && row.producers != [] && Elements(row.producers) == Members(P, B, S, row.bound)
    ensures var first := row.producers[0];
      first in P && Owner(first.at, B, S) == row.bound &&
      forall p :: p in P && Owner(p.at, B, S) == row.bound ==> AtMost(first, p)
  {
    var first := row.producers[0];
    assert first in Elements(row.producers);
    forall p | p in P && Owner(p.at, B, S) == row.bound ensures AtMost(first, p) {
      assert p in Elements(row.producers);
      var i :| 0 <= i < |row.producers| && row.producers[i] == p;
    }
  }

  /** The open slot strictly shrinks at each retroactive resolution. */
  lemma RetroShrinks(P: set<Key>, B: set<Key>, first: Key, r: Key)
    requires first in P && Earliest(B, first.at).None? && r.at >= first.at
    ensures |Uncovered(P, Live(P, B, {}) + {r})| < |Uncovered(P, B)|
  {
    var C := Live(P, B, {}) + {r};
    forall p | p in P && Earliest(B, p.at).Some? ensures Earliest(C, p.at).Some? {
      assert Owner(p.at, B, {}) == Earliest(B, p.at);
      assert Earliest(B, p.at).value in C;
    }
    assert first in Uncovered(P, B) && first !in Uncovered(P, C);
    SubsetSize(Uncovered(P, C) + {first}, Uncovered(P, B));
  }

  lemma LiveFromRows(live: seq<Insight>, resolved: seq<Insight>, bounds: seq<Key>, assign: seq<seq<Key>>)
    requires |resolved| == |bounds| == |assign| && Distinct(resolved) && live == LiveRows(resolved, assign, |bounds|)
    ensures forall r :: r in live ==> r in resolved
  {
    LiveRowsAre(resolved, assign, |bounds|);
  }

  lemma UncoveredIsOpen(P: set<Key>, B: set<Key>, bounds: seq<Key>, assign: seq<seq<Key>>, slot: seq<Key>)
    requires Plan(P, B, bounds, assign, slot)
    ensures slot == [] <==> Uncovered(P, B) == {}
  {
    PlanOpen(P, B, bounds, assign, slot);
    assert Uncovered(P, B) == Members(P, B, {}, None);
    assert slot != [] ==> slot[0] in Elements(slot);
  }

  /** The write-back loop over the resolved rows that kept a producer. */
  method WriteLive(resolved: seq<Insight>, bounds: seq<Key>, assign: seq<seq<Key>>)
      returns (live: seq<Insight>, prev: Option<Key>)
    requires |resolved| == |bounds| == |assign| && Distinct(resolved)
    requires forall i :: 0 <= i < |assign| ==> |assign[i]| <= MAX_PRODUCERS
    modifies resolved`openFrom, resolved`producers
    ensures Written(live, resolved, bounds, assign, |bounds|)
    ensures prev == PrevBound(bounds, assign, |bounds|)
  {
    live, prev := [], None;
    var i := 0;
    while i < |resolved|
      invariant 0 <= i <= |resolved|
      invariant live == LiveRows(resolved, assign, i)
      invariant prev == PrevBound(bounds, assign, i)
      invariant forall j {:trigger resolved[j]} :: 0 <= j < i && assign[j] != [] ==>
        resolved[j].producers == assign[j] && resolved[j].openFrom == PrevBound(bounds, assign, j)
    {
      if assign[i] != [] {
        var row := resolved[i];
        assert forall j :: 0 <= j < i ==> resolved[j] != row;
        row.WriteBack(prev, assign[i]);
        live, prev := live + [row], Some(bounds[i]);
      }
      i := i + 1;
    }
  }

  lemma SlotSize(ps: seq<Key>, ordered: seq<Key>, bounds: seq<Key>, i: nat, P: set<Key>)
    requires Slot(ps, ordered, bounds, i) && Elements(ordered) == P && |P| <= MAX_PRODUCERS
    ensures |ps| <= MAX_PRODUCERS
  {
    AscendingSize(ps);
    assert forall k :: k in ps ==> k in Elements(ordered);
    SubsetSize(Elements(ps), P);
  }

  lemma PlanFromSlots(rows: seq<Insight>, resolved: seq<Insight>, ordered: seq<Key>, bounds: seq<Key>,
                      assign: seq<seq<Key>>, open: seq<Key>, P: set<Key>, B: set<Key>)
    requires P == ProducersOf(rows) && B == BoundsOf(rows) && Elements(ordered) == P
    requires |bounds| == |resolved| == |assign| && NonDecreasing(bounds)
    requires forall i :: 0 <= i < |resolved| ==> resolved[i].bound == Some(bounds[i])
    requires forall r :: r in resolved <==> r in rows && r.bound.Some?
    requires forall i :: 0 <= i < |assign| ==> Slot(assign[i], ordered, bounds, i)
    requires Slot(open, ordered, bounds, |bounds|)
    ensures Plan(P, B, bounds, assign, open)
  {
    forall k ensures k in Elements(bounds) <==> k in B {
      if k in bounds {
        var i :| 0 <= i < |bounds| && bounds[i] == k;
        assert resolved[i] in rows;
      }
      if k in B {
        var r :| r in rows && r.bound == Some(k);
        var i :| 0 <= i < |resolved| && resolved[i] == r;
        assert bounds[i] == k;
      }
    }
    assert forall k :: k in ordered <==> k in P;
  }
}

/** The insight rows of one dedupe key and the operations that repartition them in place. */
module InsightChain {
  import opened Keys
  import opened EpisodeSpec

  /** Bounded evidence trail per insight: the earliest 64 producing events. */
  const MAX_PRODUCERS := 64

  class Insight {
    /** Rank of `(created_at, insight_id)` among all rows. */
    const created: nat
    /** The resolver's position on a resolved row, `None` on an open one. */
    var bound: Option<Key>
    var openFrom: Option<Key>
    var producers: seq<Key>

    constructor (created: nat, producers: seq<Key>, openFrom: Option<Key>)
      ensures this.created == created && this.producers == producers
      ensures this.openFrom == openFrom && bound == None
    {
      this.created, this.producers, this.openFrom, this.bound := created, producers, openFrom, None;
    }

    /** `_apply_producers`: keep the earliest recorded producers, in order. */
    method ApplyProducers(ps: seq<Key>)
      modifies `producers
      ensures producers == Trim(ps, MAX_PRODUCERS, KeepEarliest)
      ensures |ps| <= MAX_PRODUCERS ==> producers == ps
    {
      producers := Trim(ps, MAX_PRODUCERS, KeepEarliest);
    }

    /** `_set_open_from` and `_apply_producers`: one row of the write-back of `_normalize_chain`. */
    method WriteBack(from: Option<Key>, ps: seq<Key>)
      requires |ps| <= MAX_PRODUCERS
      modifies `openFrom, `producers
      ensures openFrom == from && producers == ps
    {
      openFrom := from;
      ApplyProducers(ps);
    }
  }

  // ---------------------------------------------------------------- what a list of rows describes

  ghost predicate Distinct(rows: seq<Insight>) {
    forall i, j :: 0 <= i < j < |rows| ==> rows[i] != rows[j]
  }

  ghost function ProducersOf(rows: seq<Insight>): set<Key>
    reads rows
  {
    set r, k | r in rows && k in r.producers :: k
  }

  ghost function BoundsOf(rows: seq<Insight>): set<Key>
    reads rows
  {
    set r | r in rows && r.bound.Some? :: r.bound.value
  }

  ghost predicate Ordered(rows: seq<Insight>)
    reads rows
  {
    Distinct(rows) && forall r :: r in rows ==> Ascending(r.producers)
  }

  /** The rows are exactly the partition that `Owner` describes. */
  ghost predicate Partition(rows: seq<Insight>, P: set<Key>, B: set<Key>, S: set<Key>)
    reads rows
  {
    && Ordered(rows)
    && (forall r :: r in rows ==> r.producers != [] && Elements(r.producers) == Members(P, B, S, r.bound))
    && (forall r :: r in rows ==> r.openFrom == Previous(Live(P, B, S), r.bound))
    && (forall q, r :: q in rows && r in rows && q.bound == r.bound ==> q == r)
    && (forall p :: p in P ==> exists r :: r in rows && r.bound == Owner(p.at, B, S))
  }

  lemma PartitionState(rows: seq<Insight>, P: set<Key>, B: set<Key>, S: set<Key>)
    requires Partition(rows, P, B, S)
    ensures ProducersOf(rows) == P && BoundsOf(rows) == Live(P, B, S)
  {
    forall k ensures k in ProducersOf(rows) <==> k in P {
      if k in ProducersOf(rows) {
        var r :| r in rows && k in r.producers;
        assert k in Elements(r.producers);
      }
      if k in P {
        var r :| r in rows && r.bound == Owner(k.at, B, S);
        assert k in Elements(r.producers);
      }
    }
    forall k ensures k in BoundsOf(rows) <==> k in Live(P, B, S) {
      if k in BoundsOf(rows) {
        var r :| r in rows && r.bound == Some(k);
        assert r.producers[0] in Elements(r.producers);
      }
      if k in Live(P, B, S) {
        var p :| p in P && Owner(p.at, B, S) == Some(k);
      }
    }
  }

  /** Owners alone decide the partition. */
  lemma PartitionDepends(rows: seq<Insight>, P: set<Key>, B: set<Key>, S: set<Key>, C: set<Key>, T: set<Key>)
    requires Partition(rows, P, B, S)
    requires forall p :: p in P ==> Owner(p.at, B, S) == Owner(p.at, C, T)
    ensures Partition(rows, P, C, T)
  {
    forall b ensures Members(P, B, S, b) == Members(P, C, T, b) {
      assert forall p :: p in Members(P, B, S, b) <==> p in Members(P, C, T, b);
    }
    assert Live(P, B, S) == Live(P, C, T) by {
      assert forall k :: k in Live(P, B, S) <==> k in Live(P, C, T);
    }
  }

  // ---------------------------------------------------------------- sorting the inputs

  /** Index of the first bound at or after `t`, or the number of bounds. */
  function FirstCover(bounds: seq<Key>, t: nat): (i: nat)
    ensures i <= |bounds|
    ensures i < |bounds| ==> bounds[i].at >= t
    ensures forall j :: 0 <= j < i ==> bounds[j].at < t
  {
    if bounds == [] || bounds[0].at >= t then 0 else 1 + FirstCover(bounds[1..], t)
  }

  predicate NonDecreasing(bounds: seq<Key>) {
    forall i, j :: 0 <= i < j < |bounds| ==> AtMost(bounds[i], bounds[j])
  }

  lemma CoverIsEarliest(bounds: seq<Key>, t: nat)
    requires NonDecreasing(bounds)
    ensures var i := FirstCover(bounds, t);
      Earliest(Elements(bounds), t) == if i < |bounds| then Some(bounds[i]) else None
  {
    var i := FirstCover(bounds, t);
    if i < |bounds| {
      assert bounds[i] in Elements(bounds);
      EarliestIs(Elements(bounds), t, bounds[i]);
    }
  }

  /** Every recorded producer of the rows, sorted. */
  method CollectProducers(rows: seq<Insight>) returns (ordered: seq<Key>)
    requires Ordered(rows)
    ensures Ascending(ordered) && Elements(ordered) == ProducersOf(rows)
  {
    ordered := [];
    var i := 0;
    while i < |rows|
      invariant 0 <= i <= |rows|
      invariant Ascending(ordered)
      invariant forall k :: k in Elements(ordered) <==> exists j :: 0 <= j < i && k in rows[j].producers
    {
      var ps, n := rows[i].producers, 0;
      while n < |ps|
        invariant 0 <= n <= |ps|
        invariant Ascending(ordered)
        invariant forall k :: k in Elements(ordered) <==>
          (exists j :: 0 <= j < i && k in rows[j].producers) || k in ps[..n]
      {
        assert ps[..n + 1] == ps[..n] + [ps[n]];
        ordered := InsertSorted(ordered, ps[n], |ordered| + 1, KeepEarliest);
        n := n + 1;
      }
      assert ps[..n] == ps;
      i := i + 1;
    }
    forall k ensures k in Elements(ordered) <==> k in ProducersOf(rows) {
      if k in ProducersOf(rows) {
        var r :| r in rows && k in r.producers;
        var j :| 0 <= j < |rows| && rows[j] == r;
      }
    }
  }

  /** The resolved rows in resolver order. */
  method SortResolved(rows: seq<Insight>) returns (resolved: seq<Insight>, bounds: seq<Key>)
    requires Distinct(rows)
    ensures |bounds| == |resolved| && NonDecreasing(bounds) && Distinct(resolved)
    ensures forall i :: 0 <= i < |resolved| ==> resolved[i].bound == Some(bounds[i])
    ensures forall r :: r in resolved <==> r in rows && r.bound.Some?
  {
    resolved, bounds := [], [];
    var i := 0;
    while i < |rows|
      invariant 0 <= i <= |rows|
      invariant |bounds| == |resolved| && NonDecreasing(bounds) && Distinct(resolved)
      invariant forall n :: 0 <= n < |resolved| ==> resolved[n].bound == Some(bounds[n])
      invariant forall r :: r in resolved <==> r in rows[..i] && r.bound.Some?
    {
      assert rows[..i + 1] == rows[..i] + [rows[i]];
      if rows[i].bound.Some? {
        resolved, bounds := InsertRow(resolved, bounds, rows[i]);
      }
      i := i + 1;
    }
    assert rows[..i] == rows;
  }

  /** One insertion of a stable sort. */
  method InsertRow(resolved: seq<Insight>, bounds: seq<Key>, row: Insight) returns (rs: seq<Insight>, bs: seq<Key>)
    requires |bounds| == |resolved| && NonDecreasing(bounds) && Distinct(resolved)
    requires forall n :: 0 <= n < |resolved| ==> resolved[n].bound == Some(bounds[n])
    requires row !in resolved && row.bound.Some?
    ensures |bs| == |rs| && NonDecreasing(bs) && Distinct(rs)
    ensures forall n :: 0 <= n < |rs| ==> rs[n].bound == Some(bs[n])
    ensures forall r :: r in rs <==> r in resolved || r == row
  {
    var b := row.bound.value;
    var m := |bounds|;
    while m > 0 && Less(b, bounds[m - 1])
      invariant 0 <= m <= |bounds|
      invariant forall n :: m <= n < |bounds| ==> Less(b, bounds[n])
    {
      m := m - 1;
    }
    rs, bs := Inserted(resolved, m, row), Inserted(bounds, m, b);
    InsertedRow(resolved, m, row);
    assert forall n :: 0 <= n < |rs| ==> rs[n].bound == Some(bs[n]);
    InsertedBound(bounds, m, b);
  }

  function Inserted<T>(s: seq<T>, m: nat, x: T): (r: seq<T>)
    requires m <= |s|
    ensures |r| == |s| + 1
    ensures forall n :: 0 <= n < |r| ==> r[n] == if n < m then s[n] else if n == m then x else s[n - 1]
  {
    s[..m] + [x] + s[m..]
  }

  lemma InsertedRow(s: seq<Insight>, m: nat, x: Insight)
    requires m <= |s| && Distinct(s) && x !in s
    ensures Distinct(Inserted(s, m, x))
    ensures forall r :: r in Inserted(s, m, x) <==> r in s || r == x
  {
    assert s == s[..m] + s[m..];
    forall r ensures r in Inserted(s, m, x) <==> r in s || r == x {
      assert r in s <==> r in s[..m] || r in s[m..];
    }
  }

  lemma InsertedBound(s: seq<Key>, m: nat, x: Key)
    requires m <= |s| && NonDecreasing(s)
    requires forall n :: m <= n < |s| ==> Less(x, s[n])
    requires m > 0 ==> AtMost(s[m - 1], x)
    ensures NonDecreasing(Inserted(s, m, x))
  {
    assert forall n :: 0 <= n < m ==> AtMost(s[n], s[m - 1]);
  }

  /** `ps` lists the producers of `seen` whose first covering bound has index `i`. */
  ghost predicate Slot(ps: seq<Key>, seen: seq<Key>, bounds: seq<Key>, i: nat) {
    Ascending(ps) && forall k :: k in ps <==> k in seen && FirstCover(bounds, k.at) == i
  }

  lemma SlotStep(ps: seq<Key>, seen: seq<Key>, p: Key, bounds: seq<Key>, i: nat)
    requires Slot(ps, seen, bounds, i)
    requires forall k :: k in seen ==> Less(k, p)
    ensures Slot(if FirstCover(bounds, p.at) == i then ps + [p] else ps, seen + [p], bounds, i)
  {
    assert forall n :: 0 <= n < |ps| ==> ps[n] in ps;
  }

  /** Each producer goes to the first resolved row whose bound is at or after it, or stays open. */
  method Assign(ordered: seq<Key>, bounds: seq<Key>) returns (assign: seq<seq<Key>>, open: seq<Key>)
    requires Ascending(ordered)
    ensures |assign| == |bounds|
    ensures forall i :: 0 <= i < |assign| ==> Slot(assign[i], ordered, bounds, i)
    ensures Slot(open, ordered, bounds, |bounds|)
  {
    assign, open := seq(|bounds|, _ => []), [];
    var n := 0;
    while n < |ordered|
      invariant 0 <= n <= |ordered|
      invariant |assign| == |bounds|
      invariant forall i :: 0 <= i < |assign| ==> Slot(assign[i], ordered[..n], bounds, i)
      invariant Slot(open, ordered[..n], bounds, |bounds|)
    {
      var p := ordered[n];
      var next := ordered[..n + 1];
      assert next == ordered[..n] + [p];
      forall i | 0 <= i < |assign|
        ensures Slot(if FirstCover(bounds, p.at) == i then assign[i] + [p] else assign[i], next, bounds, i) {
        SlotStep(assign[i], ordered[..n], p, bounds, i);
      }
      SlotStep(open, ordered[..n], p, bounds, |bounds|);
      var i := FirstCover(bounds, p.at);
      if i == |bounds| {
        open := open + [p];
      } else {
        assign := assign[i := assign[i] + [p]];
      }
      n := n + 1;
    }
    assert ordered[..n] == ordered;
  }

  // ---------------------------------------------------------------- from slots to rows

  /** The bound of the nearest live row before index `i`. */
  function PrevBound(bounds: seq<Key>, assign: seq<seq<Key>>, i: nat): Option<Key>
    requires |assign| == |bounds| && i <= |bounds|
  {
    if i == 0 then None
    else if assign[i - 1] != [] then Some(bounds[i - 1])
    else PrevBound(bounds, assign, i - 1)
  }

  /** What `Assign` establishes, with `P` the producers and `B` the bounds as sets. */
  ghost predicate Plan(P: set<Key>, B: set<Key>, bounds: seq<Key>, assign: seq<seq<Key>>, open: seq<Key>) {
    && |assign| == |bounds| && NonDecreasing(bounds) && Elements(bounds) == B
    && (forall i, k :: 0 <= i < |assign| ==> (k in assign[i] <==> k in P && FirstCover(bounds, k.at) == i))
    && (forall k :: k in open <==> k in P && FirstCover(bounds, k.at) == |bounds|)
  }

  lemma PlanOwner(P: set<Key>, B: set<Key>, bounds: seq<Key>, assign: seq<seq<Key>>, open: seq<Key>, p: Key)
    requires Plan(P, B, bounds, assign, open) && p in P
    ensures var i := FirstCover(bounds, p.at);
      Owner(p.at, B, {}) == if i < |bounds| then Some(bounds[i]) else None
  {
    CoverIsEarliest(bounds, p.at);
  }

  lemma LiveIncreasing(P: set<Key>, B: set<Key>, bounds: seq<Key>, assign: seq<seq<Key>>, open: seq<Key>, i: nat, j: nat)
    requires Plan(P, B, bounds, assign, open) && i < j < |bounds| && assign[j] != []
    ensures Less(bounds[i], bounds[j])
  {
    var k := assign[j][0];
    assert k in assign[j] && FirstCover(bounds, k.at) == j;
  }

  lemma LiveDistinct(P: set<Key>, B: set<Key>, bounds: seq<Key>, assign: seq<seq<Key>>, open: seq<Key>, i: nat, j: nat)
    requires Plan(P, B, bounds, assign, open) && i < |bounds| && j < |bounds|
    requires assign[i] != [] && assign[j] != [] && bounds[i] == bounds[j]
    ensures i == j
  {
    var a, b := assign[i][0], assign[j][0];
    assert a in assign[i] && b in assign[j];
    assert FirstCover(bounds, a.at) == i && FirstCover(bounds, b.at) == j;
  }

  lemma PlanMembers(P: set<Key>, B: set<Key>, bounds: seq<Key>, assign: seq<seq<Key>>, open: seq<Key>, i: nat)
    requires Plan(P, B, bounds, assign, open) && i < |bounds| && assign[i] != []
    ensures Elements(assign[i]) == Members(P, B, {}, Some(bounds[i]))
    ensures bounds[i] in Live(P, B, {})
  {
    forall k ensures k in Elements(assign[i]) <==> k in Members(P, B, {}, Some(bounds[i])) {
      if k in P {
        PlanOwner(P, B, bounds, assign, open, k);
        var j := FirstCover(bounds, k.at);
        if j < |bounds| && bounds[j] == bounds[i] {
          assert k in assign[j];
          LiveDistinct(P, B, bounds, assign, open, i, j);
        }
      }
    }
    assert assign[i][0] in Elements(assign[i]);
  }

  lemma PlanOpen(P: set<Key>, B: set<Key>, bounds: seq<Key>, assign: seq<seq<Key>>, open: seq<Key>)
    requires Plan(P, B, bounds, assign, open)
    ensures Elements(open) == Members(P, B, {}, None)
  {
    forall k ensures k in Elements(open) <==> k in Members(P, B, {}, None) {
      if k in P { PlanOwner(P, B, bounds, assign, open, k); }
    }
  }

  /** Every live bound has an index. */
  lemma LiveIndex(P: set<Key>, B: set<Key>, bounds: seq<Key>, assign: seq<seq<Key>>, open: seq<Key>, b: Key)
      returns (i: nat)
    requires Plan(P, B, bounds, assign, open) && b in Live(P, B, {})
    ensures i < |bounds| && bounds[i] == b && assign[i] != []
  {
    var p :| p in P && Owner(p.at, B, {}) == Some(b);
    PlanOwner(P, B, bounds, assign, open, p);
    i := FirstCover(bounds, p.at);
    assert p in assign[i];
  }

  lemma {:induction false} PrevBoundIsLast(bounds: seq<Key>, assign: seq<seq<Key>>, i: nat) returns (j: nat)
    requires |assign| == |bounds| && i <= |bounds|
    ensures PrevBound(bounds, assign, i).Some? ==>
      j < i && assign[j] != [] && PrevBound(bounds, assign, i) == Some(bounds[j]) &&
      forall n :: j < n < i ==> assign[n] == []
    ensures PrevBound(bounds, assign, i).None? ==> forall n :: 0 <= n < i ==> assign[n] == []
  {
    j := 0;
    if i > 0 {
      if assign[i - 1] != [] { j := i - 1; } else { j := PrevBoundIsLast(bounds, assign, i - 1); }
    }
  }

  /** The row at index `i` starts where the previous live row ends. */
  lemma PrevBoundIsPrevious(P: set<Key>, B: set<Key>, bounds: seq<Key>, assign: seq<seq<Key>>, open: seq<Key>, i: nat)
    requires Plan(P, B, bounds, assign, open) && i <= |bounds| && (i < |bounds| ==> assign[i] != [])
    ensures PrevBound(bounds, assign, i)
         == Previous(Live(P, B, {}), if i < |bounds| then Some(bounds[i]) else None)
  {
    var L, b := Live(P, B, {}), if i < |bounds| then Some(bounds[i]) else None;
    var r := PrevBound(bounds, assign, i);
    forall k | k in L && (b.Some? ==> Less(k, b.value)) ensures r.Some? && AtMost(k, r.value) {
      PrevBoundAbove(P, B, bounds, assign, open, i, k);
    }
    if r.Some? {
      var j := PrevBoundIsLast(bounds, assign, i);
      PlanMembers(P, B, bounds, assign, open, j);
      if i < |bounds| { LiveIncreasing(P, B, bounds, assign, open, j, i); }
    }
  }

  lemma PrevBoundAbove(P: set<Key>, B: set<Key>, bounds: seq<Key>, assign: seq<seq<Key>>, open: seq<Key>, i: nat, k: Key)
    requires Plan(P, B, bounds, assign, open) && i <= |bounds|
    requires k in Live(P, B, {}) && (i < |bounds| ==> Less(k, bounds[i]))
    ensures PrevBound(bounds, assign, i).Some? && AtMost(k, PrevBound(bounds, assign, i).value)
  {
    var j := PrevBoundIsLast(bounds, assign, i);
    var n := LiveIndex(P, B, bounds, assign, open, k);
    IndexBelow(bounds, i, n);
    assert n == j || AtMost(bounds[n], bounds[j]);
  }

  lemma IndexBelow(bounds: seq<Key>, i: nat, n: nat)
    requires NonDecreasing(bounds) && n < |bounds| && i <= |bounds|
    requires i < |bounds| ==> Less(bounds[n], bounds[i])
    ensures n < i
  {
  }

  /** The first `i` resolved rows without those left empty. */
  function LiveRows(resolved: seq<Insight>, assign: seq<seq<Key>>, i: nat): seq<Insight>
    requires |assign| == |resolved| && i <= |resolved|
  {
    if i == 0 then []
    else if assign[i - 1] == [] then LiveRows(resolved, assign, i - 1)
    else LiveRows(resolved, assign, i - 1) + [resolved[i - 1]]
  }

  lemma {:induction false} LiveRowsAre(resolved: seq<Insight>, assign: seq<seq<Key>>, i: nat)
    requires |assign| == |resolved| && i <= |resolved| && Distinct(resolved)
    ensures Distinct(LiveRows(resolved, assign, i))
    ensures forall r :: r in LiveRows(resolved, assign, i) ==>
      exists j :: 0 <= j < i && assign[j] != [] && r == resolved[j]
    ensures forall j :: 0 <= j < i && assign[j] != [] ==> resolved[j] in LiveRows(resolved, assign, i)
  {
    if i > 0 {
      var before := LiveRows(resolved, assign, i - 1);
      LiveRowsAre(resolved, assign, i - 1);
      assert resolved[i - 1] !in before;
      assert forall r :: r in LiveRows(resolved, assign, i) <==>
        r in before || (assign[i - 1] != [] && r == resolved[i - 1]);
    }
  }

  /** The write-back loop of `_normalize_chain` has reached index `i`. */
  ghost predicate Written(live: seq<Insight>, resolved: seq<Insight>, bounds: seq<Key>, assign: seq<seq<Key>>, i: nat)
    requires |assign| == |bounds| == |resolved| && i <= |bounds|
    reads resolved
  {
    && live == LiveRows(resolved, assign, i)
    && (forall j {:trigger resolved[j]} :: 0 <= j < i && assign[j] != [] ==>
          resolved[j].producers == assign[j] && resolved[j].openFrom == PrevBound(bounds, assign, j))
  }

  lemma WrittenIsPartition(live: seq<Insight>, resolved: seq<Insight>, bounds: seq<Key>, assign: seq<seq<Key>>,
                           open: seq<Key>, openRow: Insight?, P: set<Key>, B: set<Key>)
    requires Plan(P, B, bounds, assign, open) && |resolved| == |bounds| && Distinct(resolved)
    requires Written(live, resolved, bounds, assign, |bounds|)
    requires forall i :: 0 <= i < |bounds| ==> resolved[i].bound == Some(bounds[i]) && Ascending(assign[i])
    requires Ascending(open) && (open == [] <==> openRow == null)
    requires openRow != null ==> openRow.bound == None && openRow !in live && openRow.producers == open
    requires openRow != null ==> openRow.openFrom == PrevBound(bounds, assign, |bounds|)
    ensures Partition(if openRow == null then live else live + [openRow], P, B, {})
  {
    var rows := if openRow == null then live else live + [openRow];
    PlanOpen(P, B, bounds, assign, open);
    PrevBoundIsPrevious(P, B, bounds, assign, open, |bounds|);
    LiveRowsMatch(live, resolved, bounds, assign, open, P, B);
    LiveRowsUnique(live, resolved, bounds, assign, open, P, B);
    forall p | p in P ensures exists r :: r in rows && r.bound == Owner(p.at, B, {}) {
      RowOfProducer(live, resolved, bounds, assign, open, openRow, P, B, p);
    }
    LiveRowsAre(resolved, assign, |bounds|);
    RowsPartition(live, openRow, rows, P, B);
  }

  lemma RowsPartition(live: seq<Insight>, openRow: Insight?, rows: seq<Insight>, P: set<Key>, B: set<Key>)
    requires Distinct(live) && rows == if openRow == null then live else live + [openRow]
    requires forall r :: r in live ==> r.producers != [] && Ascending(r.producers) && r.bound.Some?
    requires forall r :: r in live ==> Elements(r.producers) == Members(P, B, {}, r.bound)
    requires forall r :: r in live ==> r.openFrom == Previous(Live(P, B, {}), r.bound)
    requires forall q, r :: q in live && r in live && q.bound == r.bound ==> q == r
    requires openRow != null ==> openRow.bound == None && openRow !in live && openRow.producers != []
    requires openRow != null ==> Ascending(openRow.producers) && Elements(openRow.producers) == Members(P, B, {}, None)
    requires openRow != null ==> openRow.openFrom == Previous(Live(P, B, {}), None)
    requires forall p :: p in P ==> exists r :: r in rows && r.bound == Owner(p.at, B, {})
    ensures Partition(rows, P, B, {})
  {
    assert forall r :: r in rows <==> r in live || r == openRow;
  }

  lemma LiveRowsMatch(live: seq<Insight>, resolved: seq<Insight>, bounds: seq<Key>, assign: seq<seq<Key>>,
                      open: seq<Key>, P: set<Key>, B: set<Key>)
    requires Plan(P, B, bounds, assign, open) && |resolved| == |bounds| && Distinct(resolved)
    requires Written(live, resolved, bounds, assign, |bounds|)
    requires forall i :: 0 <= i < |bounds| ==> resolved[i].bound == Some(bounds[i]) && Ascending(assign[i])
    ensures forall r :: r in live ==> r.producers != [] && Ascending(r.producers) && r.bound.Some?
    ensures forall r :: r in live ==> Elements(r.producers) == Members(P, B, {}, r.bound)
    ensures forall r :: r in live ==> r.openFrom == Previous(Live(P, B, {}), r.bound)
  {
    LiveRowsAre(resolved, assign, |bounds|);
    forall r | r in live
      ensures r.producers != [] && Ascending(r.producers) && r.bound.Some?
      ensures Elements(r.producers) == Members(P, B, {}, r.bound)
      ensures r.openFrom == Previous(Live(P, B, {}), r.bound)
    {
      var j :| 0 <= j < |bounds| && assign[j] != [] && r == resolved[j];
      PlanMembers(P, B, bounds, assign, open, j);
      PrevBoundIsPrevious(P, B, bounds, assign, open, j);
    }
  }

  lemma LiveRowsUnique(live: seq<Insight>, resolved: seq<Insight>, bounds: seq<Key>, assign: seq<seq<Key>>,
                       open: seq<Key>, P: set<Key>, B: set<Key>)
    requires Plan(P, B, bounds, assign, open) && |resolved| == |bounds| && Distinct(resolved)
    requires Written(live, resolved, bounds, assign, |bounds|)
    requires forall i :: 0 <= i < |bounds| ==> resolved[i].bound == Some(bounds[i])
    ensures forall q, r :: q in live && r in live && q.bound == r.bound ==> q == r
  {
    LiveRowsAre(resolved, assign, |bounds|);
    forall q, r | q in live && r in live && q.bound == r.bound ensures q == r {
      var i :| 0 <= i < |bounds| && assign[i] != [] && q == resolved[i];
      var j :| 0 <= j < |bounds| && assign[j] != [] && r == resolved[j];
      LiveDistinct(P, B, bounds, assign, open, i, j);
    }
  }

  lemma RowOfProducer(live: seq<Insight>, resolved: seq<Insight>, bounds: seq<Key>, assign: seq<seq<Key>>,
                      open: seq<Key>, openRow: Insight?, P: set<Key>, B: set<Key>, p: Key)
    requires Plan(P, B, bounds, assign, open) && |resolved| == |bounds| && Distinct(resolved) && p in P
    requires Written(live, resolved, bounds, assign, |bounds|)
    requires forall i :: 0 <= i < |bounds| ==> resolved[i].bound == Some(bounds[i])
    requires open != [] ==> openRow != null && openRow.bound == None
    ensures exists r :: r in (if openRow == null then live else live + [openRow]) && r.bound == Owner(p.at, B, {})
  {
    PlanOwner(P, B, bounds, assign, open, p);
    var i := FirstCover(bounds, p.at);
    if i < |bounds| {
      LiveRowsAre(resolved, assign, |bounds|);
      assert p in assign[i];
      assert resolved[i] in live;
    } else {
      assert p in open;
    }
  }
}

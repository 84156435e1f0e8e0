/** Relationship edges: accumulated per batch, then inserted and merged into the stored row. */
module EdgeFold {
  import opened Keys

  const MAX_EDGE_SOURCES := 32

  /** One event that shows the edge. */
  datatype Sighting = Sighting(key: Key, confidence: real)

  datatype Edge = Edge(confidence: real, sources: seq<Key>)

  ghost function KeysOf(h: set<Sighting>): set<Key> { set x | x in h :: x.key }

  ghost function Confidences(h: set<Sighting>): set<real> { set x | x in h :: x.confidence }

  ghost predicate IsTop(c: real, s: set<real>) {
    c in s && forall x :: x in s ==> x <= c
  }

  /** The state is the closed form of the sightings `h`. */
  ghost predicate Describes(e: Edge, h: set<Sighting>) {
    IsTop(e.confidence, Confidences(h)) && IsWindow(e.sources, KeysOf(h), MAX_EDGE_SOURCES, KeepEarliest)
  }

  lemma SetsOfSum(h: set<Sighting>, g: set<Sighting>)
    ensures KeysOf(h + g) == KeysOf(h) + KeysOf(g) && Confidences(h + g) == Confidences(h) + Confidences(g)
  {
    assert forall k :: k in KeysOf(h + g) <==> k in KeysOf(h) || k in KeysOf(g);
    assert forall c :: c in Confidences(h + g) <==> c in Confidences(h) || c in Confidences(g);
  }

  /** The edge loop of `_accumulate`: `seen` is the accumulator's entry, if there is one. */
  method Accumulate(seen: Option<Edge>, x: Sighting, ghost h: set<Sighting>) returns (e: Edge)
    requires if seen.Some? then Describes(seen.value, h) else h == {}
    ensures Describes(e, h + {x})
  {
    SetsOfSum(h, {x});
    assert KeysOf({x}) == {x.key} && Confidences({x}) == {x.confidence};
    EmptyWindow(MAX_EDGE_SOURCES, KeepEarliest);
    assert h == {} ==> KeysOf(h) == {} && Confidences(h) == {};
    hide KeysOf, Confidences, IsWindow;
    var before := if seen.Some? then seen.value else Edge(x.confidence, []);
    var sources := InsertSorted(before.sources, x.key, MAX_EDGE_SOURCES, KeepEarliest) by {
      WindowIsAscending(before.sources, KeysOf(h));
    }
    e := Edge(if before.confidence < x.confidence then x.confidence else before.confidence, sources);
  }

  lemma WindowIsAscending(w: seq<Key>, s: set<Key>)
    requires IsWindow(w, s, MAX_EDGE_SOURCES, KeepEarliest)
    ensures Ascending(w)
  {
  }

  // ---------------------------------------------------------------- rows

  /** A row with its `fold_state`; `refs` is `source_event_ids`. */
  datatype Row = Row(confidence: real, sources: seq<Key>, refs: seq<nat>)

  ghost predicate RowOf(row: Row, h: set<Sighting>) {
    Describes(Edge(row.confidence, row.sources), h) && row.refs == Ids(row.sources)
  }

  /** `_flush_edges` on an existing row. */
  method Merge(row: Row, e: Edge, ghost h: set<Sighting>, ghost g: set<Sighting>) returns (out: Row)
    requires RowOf(row, h) && Describes(e, g)
    ensures RowOf(out, h + g)
  {
    SetsOfSum(h, g);
    hide KeysOf, Confidences, IsWindow, Ids;
    var merged := InsertAll(row.sources, e.sources, MAX_EDGE_SOURCES, KeepEarliest, KeysOf(h), KeysOf(g));
    out := row;
    if e.confidence > row.confidence {
      out := out.(confidence := e.confidence);
    }
    if Ids(merged) != row.refs {
      out := out.(refs := Ids(merged));
    }
    out := out.(sources := merged);
  }

  /** `_flush_edges`: insert when absent, then merge the same accumulator into what is there. */
  method Flush(existing: Option<Row>, e: Edge, ghost h: set<Sighting>, ghost g: set<Sighting>) returns (row: Row)
    requires if existing.Some? then RowOf(existing.value, h) else h == {}
    requires Describes(e, g)
    ensures RowOf(row, h + g)
  {
    match existing {
      case Some(found) =>
        row := Merge(found, e, h, g);
      case None =>
        assert g + g == g && h + g == g;
        row := Merge(Row(e.confidence, e.sources, Ids(e.sources)), e, g, g);
    }
  }

  /** The row depends only on which events showed the edge. */
  lemma RowUnique(r: Row, q: Row, h: set<Sighting>)
    requires RowOf(r, h) && RowOf(q, h)
    ensures r == q
  {
    WindowUnique(r.sources, q.sources, KeysOf(h), MAX_EDGE_SOURCES, KeepEarliest);
    hide IsWindow, KeysOf, Confidences;
    assert r.confidence <= q.confidence <= r.confidence;
  }
}

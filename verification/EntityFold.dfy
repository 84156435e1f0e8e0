/** Entities and edges: `_accumulate` over a batch, then the insert-and-merge of `_flush_entities` and
    `_flush_edges`. */
module EntityFold {
  import opened Keys
  import opened LatestWrites

  /** One event's contribution to one entity: its position and the lifecycle attributes it sets. */
  datatype Touch = Touch(key: Key, updates: Values)

  /** Accumulator of one entity within a batch. */
  datatype Entity = Entity(first: Option<nat>, last: Option<nat>, values: Values, at: WriteKeys, derived: seq<Key>)

  const NEW_ENTITY := Entity(None, None, map[], map[], [])

  ghost function Times(h: set<Touch>): set<nat> { set t | t in h :: t.key.at }

  ghost function Sources(h: set<Touch>): set<Key> { set t | t in h && t.key.eid != 0 :: t.key }

  ghost function UpdatesOf(key: Key, updates: Values): set<Write> {
    set f | f in updates :: Write(key, f, updates[f])
  }

  ghost function WritesOf(h: set<Touch>): set<Write> { set t, w | t in h && w in UpdatesOf(t.key, t.updates) :: w }

  /** The state is the closed form of the touches `h`. */
  ghost predicate Describes(e: Entity, h: set<Touch>) {
    && IsMin(e.first, Times(h))
    && IsMax(e.last, Times(h))
    && Latest(e.values, e.at, WritesOf(h))
    && IsWindow(e.derived, Sources(h), MAX_DERIVED_FROM, KeepEarliest)
  }

  lemma SetsOfSum(h: set<Touch>, g: set<Touch>)
    ensures Times(h + g) == Times(h) + Times(g)
    ensures Sources(h + g) == Sources(h) + Sources(g)
    ensures WritesOf(h + g) == WritesOf(h) + WritesOf(g)
  {
    hide UpdatesOf;
    assert forall x :: x in Times(h + g) <==> x in Times(h) || x in Times(g);
    assert forall x :: x in Sources(h + g) <==> x in Sources(h) || x in Sources(g);
    assert forall w :: w in WritesOf(h + g) <==> w in WritesOf(h) || w in WritesOf(g);
  }

  lemma SetsOfOne(t: Touch)
    ensures Times({t}) == {t.key.at}
    ensures Sources({t}) == if t.key.eid != 0 then {t.key} else {}
    ensures WritesOf({t}) == UpdatesOf(t.key, t.updates)
  {
    hide UpdatesOf;
    assert forall w :: w in WritesOf({t}) <==> w in UpdatesOf(t.key, t.updates);
  }

  // ---------------------------------------------------------------- accumulation

  /** `merge_attributes`. */
  method MergeAttributes(values: Values, at: WriteKeys, updates: Values, key: Key, ghost g: set<Write>)
      returns (v: Values, a: WriteKeys)
    requires Latest(values, at, g)
    ensures Latest(v, a, g + UpdatesOf(key, updates))
  {
    hide Latest;
    v, a := values, at;
    var names := updates.Keys;
    ghost var done: set<Write> := {};
    assert g + done == g;
    while names != {}
      invariant names <= updates.Keys
      invariant done == set f | f in updates && f !in names :: Write(key, f, updates[f])
      invariant Latest(v, a, g + done)
      decreases |names|
    {
      var f :| f in names;
      v, a := SetLatest(v, a, f, updates[f], key);
      assert g + done + {Write(key, f, updates[f])} == g + (done + {Write(key, f, updates[f])});
      done := done + {Write(key, f, updates[f])};
      names := names - {f};
    }
    assert done == UpdatesOf(key, updates);
  }

  /** `_record`. */
  method Record(derived: seq<Key>, key: Key, ghost s: set<Key>) returns (out: seq<Key>)
    requires IsWindow(derived, s, MAX_DERIVED_FROM, KeepEarliest)
    ensures IsWindow(out, s + if key.eid != 0 then {key} else {}, MAX_DERIVED_FROM, KeepEarliest)
  {
    if key.eid == 0 {
      assert s + {} == s;
      return derived;
    }
    out := InsertSorted(derived, key, MAX_DERIVED_FROM, KeepEarliest);
  }

  /** The `first_seen_at` and `last_seen_at` comparisons. */
  method Widen(first: Option<nat>, last: Option<nat>, lo: Option<nat>, hi: Option<nat>, ghost s: set<nat>, ghost t: set<nat>)
      returns (f: Option<nat>, l: Option<nat>)
    requires IsMin(first, s) && IsMax(last, s) && IsMin(lo, t) && IsMax(hi, t)
    ensures IsMin(f, s + t) && IsMax(l, s + t)
  {
    f, l := first, last;
    if lo.Some? && (first.None? || lo.value < first.value) {
      f := lo;
    }
    if hi.Some? && (last.None? || hi.value > last.value) {
      l := hi;
    }
  }

  /** One entity of `_accumulate`. */
  method AccumulateOne(e: Entity, t: Touch, ghost h: set<Touch>) returns (out: Entity)
    requires Describes(e, h)
    ensures Describes(out, h + {t})
  {
    SetsOfSum(h, {t});
    SetsOfOne(t);
    hide Sources, Times, WritesOf, IsWindow, UpdatesOf, Latest;
    var derived := Record(e.derived, t.key, Sources(h));
    var values, at := MergeAttributes(e.values, e.at, t.updates, t.key, WritesOf(h));
    var first, last := Widen(e.first, e.last, Some(t.key.at), Some(t.key.at), Times(h), {t.key.at});
    out := Entity(first, last, values, at, derived);
  }

  // ---------------------------------------------------------------- rows

  /** A row of the entity registry, with its `fold_state`; `refs` is `provenance.derived_from`. */
  datatype Row = Row(first: nat, last: nat, values: Values, at: WriteKeys, derived: seq<Key>, refs: seq<nat>)

  function StateOf(row: Row): Entity {
    Entity(Some(row.first), Some(row.last), row.values, row.at, row.derived)
  }

  ghost predicate RowOf(row: Row, h: set<Touch>) {
    Describes(StateOf(row), h) && row.refs == Ids(row.derived)
  }

  /** An event id names one position. */
  ghost predicate UniqueIds(keys: set<Key>) {
    forall k, l :: k in keys && l in keys && k.eid == l.eid ==> k == l
  }

  lemma SameIdsSameKeys(a: seq<Key>, b: seq<Key>, all: set<Key>)
    requires UniqueIds(all) && Elements(a) <= all && Elements(b) <= all && Ids(a) == Ids(b)
    ensures a == b
  {
    forall i | 0 <= i < |a| ensures a[i] == b[i] {
      assert a[i] in Elements(a) && b[i] in Elements(b);
      assert Ids(a)[i] == Ids(b)[i];
    }
  }

  /** `_flush_entities` on an existing row: widen, merge attributes per field, merge provenance by key. */
  method MergeRow(row: Row, e: Entity, ghost h: set<Touch>, ghost g: set<Touch>) returns (out: Row)
    requires Describes(StateOf(row), h) && Describes(e, g) && UniqueIds(Sources(h + g))
    requires row.refs == Ids(row.derived) || row.refs == Ids(FirstOnly(row.derived))
    ensures RowOf(out, h + g)
  {
    SetsOfSum(h, g);
    hide Sources, Times, WritesOf, IsWindow, Latest, UniqueIds, Ids, FirstOnly;
    var gate := Some(Key(row.last, 0));
    var first, last := Widen(Some(row.first), Some(row.last), e.first, e.last, Times(h), Times(g));
    SomeTime(first, last, Times(h), Times(g));
    var values, at := GatedMerge(row.values, row.at, e.values, e.at, gate);
    MergeIsLatest(row.values, row.at, e.values, e.at, gate, values, at, WritesOf(h), WritesOf(g));
    var merged := InsertAll(row.derived, e.derived, MAX_DERIVED_FROM, KeepEarliest, Sources(h), Sources(g));
    out := Row(first.value, last.value, values, at, row.derived, row.refs);
    if Ids(merged) != row.refs {
      out := out.(derived := merged, refs := Ids(merged));
    } else {
      SameReferences(merged, row.derived, row.refs, Sources(h), Sources(g));
    }
  }

  lemma SomeTime(first: Option<nat>, last: Option<nat>, s: set<nat>, t: set<nat>)
    requires IsMin(first, s + t) && IsMax(last, s + t) && s != {}
    ensures first.Some? && last.Some?
  {
    var x :| x in s;
    assert x in s + t;
  }

  /** Unchanged references mean unchanged keys: the write that the code skips would change nothing. */
  lemma SameReferences(merged: seq<Key>, derived: seq<Key>, refs: seq<nat>, s: set<Key>, t: set<Key>)
    requires IsWindow(merged, s + t, MAX_DERIVED_FROM, KeepEarliest) && IsWindow(derived, s, MAX_DERIVED_FROM, KeepEarliest)
    requires UniqueIds(s + t) && Ids(merged) == refs
    requires refs == Ids(derived) || refs == Ids(FirstOnly(derived))
    ensures merged == derived && refs == Ids(derived)
  {
    SubsetSize(s, s + t);
    assert |Ids(merged)| == |merged| >= |derived| && |Ids(FirstOnly(derived))| == |FirstOnly(derived)|;
    assert FirstOnly(derived) == derived || |FirstOnly(derived)| < |derived|;
    SameIdsSameKeys(merged, derived, s + t);
  }

  function FirstOnly(keys: seq<Key>): seq<Key> {
    if keys == [] then [] else [keys[0]]
  }

  /** The row the upsert inserts for an entity not seen before: provenance lists the first source only. */
  function Inserted(e: Entity): Row
    requires e.first.Some? && e.last.Some?
  {
    Row(e.first.value, e.last.value, e.values, e.at, e.derived, Ids(FirstOnly(e.derived)))
  }

  /** Insert, then merge the same accumulator into the row just inserted or found. */
  method FlushOne(existing: Option<Row>, e: Entity, ghost h: set<Touch>, ghost g: set<Touch>) returns (row: Row)
    requires if existing.Some? then RowOf(existing.value, h) else h == {}
    requires Describes(e, g) && g != {} && UniqueIds(Sources(h + g))
    ensures RowOf(row, h + g)
  {
    hide Sources, IsWindow, Latest, UniqueIds, Ids, FirstOnly, WritesOf, Describes;
    match existing {
      case Some(found) =>
        row := MergeRow(found, e, h, g);
      case None =>
        Seen(e, g);
        assert g + g == g && h + g == g;
        row := MergeRow(Inserted(e), e, g, g);
    }
  }

  lemma Seen(e: Entity, g: set<Touch>)
    requires Describes(e, g) && g != {}
    ensures e.first.Some? && e.last.Some? && StateOf(Inserted(e)) == e
  {
    var t :| t in g;
    assert t.key.at in Times(g);
  }

  /** Rows that folded the same touches are equal: order, batching, repetition and re-flushing leave no
      trace. */
  lemma RowUnique(r: Row, q: Row, h: set<Touch>)
    requires RowOf(r, h) && RowOf(q, h) && Consistent(WritesOf(h))
    ensures r == q
  {
    hide Sources, Times, WritesOf;
    assert r.first == q.first && r.last == q.last;
    hide IsMin, IsMax;
    LatestUnique(r.values, r.at, q.values, q.at, WritesOf(h));
    WindowUnique(r.derived, q.derived, Sources(h), MAX_DERIVED_FROM, KeepEarliest);
  }

  /** Distinct event positions make the writes consistent. */
  lemma WritesConsistent(h: set<Touch>)
    requires forall t, u :: t in h && u in h && t.key == u.key ==> t == u
    ensures Consistent(WritesOf(h))
  {
    forall u, v | u in WritesOf(h) && v in WritesOf(h) && u.key == v.key && u.field == v.field ensures u == v {
      var x :| x in h && u in UpdatesOf(x.key, x.updates);
      var y :| y in h && v in UpdatesOf(y.key, y.updates);
    }
  }

  /** Flushing an accumulator a second time leaves the row as the first flush left it. */
  method FlushIdempotent(existing: Option<Row>, e: Entity, ghost h: set<Touch>, ghost g: set<Touch>) returns (once: Row, twice: Row)
    requires if existing.Some? then RowOf(existing.value, h) else h == {}
    requires Describes(e, g) && g != {} && UniqueIds(Sources(h + g)) && Consistent(WritesOf(h + g))
    ensures RowOf(once, h + g) && twice == once
  {
    once := FlushOne(existing, e, h, g);
    assert h + g + g == h + g;
    twice := FlushOne(Some(once), e, h + g, g);
    RowUnique(once, twice, h + g);
  }

  // ---------------------------------------------------------------- a batch

  /** What one event contributes to the registry: the entities it touches, with their updates. */
  datatype Derived = Derived(key: Key, entities: map<string, Values>)

  ghost function TouchesOf(batch: seq<Derived>, id: string): set<Touch> {
    set d | d in batch && id in d.entities :: Touch(d.key, d.entities[id])
  }

  ghost predicate Accumulated(states: map<string, Entity>, batch: seq<Derived>) {
    && (forall id :: id in states ==> Describes(states[id], TouchesOf(batch, id)) && TouchesOf(batch, id) != {})
    && (forall id :: id !in states ==> TouchesOf(batch, id) == {})
  }

  /** Touches of the first `i` events, and of the entities of event `i` that are not in `todo`. */
  ghost function Partial(batch: seq<Derived>, i: nat, todo: set<string>, id: string): set<Touch>
    requires i < |batch|
  {
    TouchesOf(batch[..i], id)
    + if id in batch[i].entities && id !in todo then {Touch(batch[i].key, batch[i].entities[id])} else {}
  }

  ghost predicate Midway(states: map<string, Entity>, batch: seq<Derived>, i: nat, todo: set<string>)
    requires i < |batch|
  {
    && (forall id :: id in states ==> Describes(states[id], Partial(batch, i, todo, id)) && Partial(batch, i, todo, id) != {})
    && (forall id :: id !in states ==> Partial(batch, i, todo, id) == {})
  }

  /** The entity loop of `_accumulate` for one event. */
  method AccumulateEvent(states: map<string, Entity>, batch: seq<Derived>, i: nat) returns (out: map<string, Entity>)
    requires i < |batch| && Accumulated(states, batch[..i])
    ensures Accumulated(out, batch[..i + 1])
  {
    var d := batch[i];
    out := states;
    var todo := d.entities.Keys;
    MidwayStart(states, batch, i);
    hide Describes, Midway, Accumulated, TouchesOf, Partial;
    while todo != {}
      invariant todo <= d.entities.Keys
      invariant Midway(out, batch, i, todo)
      decreases |todo|
    {
      var id :| id in todo;
      MidwayEntity(out, batch, i, todo, id);
      var e := if id in out then out[id] else NEW_ENTITY;
      e := AccumulateOne(e, Touch(d.key, d.entities[id]), TouchesOf(batch[..i], id));
      MidwayStep(out, batch, i, todo, id, e);
      out, todo := out[id := e], todo - {id};
    }
    MidwayEnd(out, batch, i);
  }

  lemma MidwayStart(states: map<string, Entity>, batch: seq<Derived>, i: nat)
    requires i < |batch| && Accumulated(states, batch[..i])
    ensures Midway(states, batch, i, batch[i].entities.Keys)
  {
    hide Describes, TouchesOf;
    forall id ensures Partial(batch, i, batch[i].entities.Keys, id) == TouchesOf(batch[..i], id) {
    }
  }

  lemma MidwayEntity(states: map<string, Entity>, batch: seq<Derived>, i: nat, todo: set<string>, id: string)
    requires i < |batch| && Midway(states, batch, i, todo) && id in todo
    ensures Describes(if id in states then states[id] else NEW_ENTITY, TouchesOf(batch[..i], id))
  {
    NewEntity();
    hide Describes, TouchesOf;
    assert Partial(batch, i, todo, id) == TouchesOf(batch[..i], id);
  }

  lemma MidwayStep(states: map<string, Entity>, batch: seq<Derived>, i: nat, todo: set<string>, id: string, e: Entity)
    requires i < |batch| && Midway(states, batch, i, todo) && id in todo && id in batch[i].entities
    requires Describes(e, TouchesOf(batch[..i], id) + {Touch(batch[i].key, batch[i].entities[id])})
    ensures Midway(states[id := e], batch, i, todo - {id})
  {
    hide Describes, TouchesOf;
    forall x | x != id ensures Partial(batch, i, todo - {id}, x) == Partial(batch, i, todo, x) {
    }
    assert Touch(batch[i].key, batch[i].entities[id]) in Partial(batch, i, todo - {id}, id);
  }

  lemma MidwayEnd(states: map<string, Entity>, batch: seq<Derived>, i: nat)
    requires i < |batch| && Midway(states, batch, i, {})
    ensures Accumulated(states, batch[..i + 1])
  {
    hide Describes;
    forall id ensures Partial(batch, i, {}, id) == TouchesOf(batch[..i + 1], id) {
      NextTouches(batch, i, id);
    }
  }

  lemma NewEntity()
    ensures Describes(NEW_ENTITY, {})
  {
    assert Times({}) == {} && Sources({}) == {} && WritesOf({}) == {};
  }

  lemma NextTouches(batch: seq<Derived>, i: nat, id: string)
    requires i < |batch|
    ensures TouchesOf(batch[..i + 1], id) == Partial(batch, i, {}, id)
  {
    assert batch[..i + 1] == batch[..i] + [batch[i]];
  }

  /** `_accumulate` over a batch. */
  method Accumulate(batch: seq<Derived>) returns (states: map<string, Entity>)
    ensures Accumulated(states, batch)
  {
    states := map[];
    var i := 0;
    NoTouches(batch);
    hide Accumulated;
    while i < |batch|
      invariant 0 <= i <= |batch|
      invariant Accumulated(states, batch[..i])
    {
      states := AccumulateEvent(states, batch, i);
      i := i + 1;
    }
    assert batch[..i] == batch;
  }

  lemma NoTouches(batch: seq<Derived>)
    ensures Accumulated(map[], batch[..0])
  {
  }

  class Registry {
    var rows: map<string, Row>
    /** The touches folded into each row so far. */
    ghost var folded: map<string, set<Touch>>

    ghost predicate Valid()
      reads this
    {
      rows.Keys == folded.Keys && forall id :: id in rows ==> RowOf(rows[id], folded[id])
    }

    constructor ()
      ensures Valid() && rows == map[] && folded == map[]
    {
      rows, folded := map[], map[];
    }

    /** `_flush_entities` for one accumulated entity. */
    method Flush(id: string, e: Entity, ghost g: set<Touch>)
      requires Valid() && Describes(e, g) && g != {} && UniqueIds(Sources(Into(folded, id) + g))
      modifies this
      ensures Valid() && folded == old(folded)[id := old(Into(folded, id)) + g]
    {
      hide RowOf, Describes, UniqueIds, Sources;
      var row := FlushOne(if id in rows then Some(rows[id]) else None, e, Into(folded, id), g);
      rows, folded := rows[id := row], folded[id := Into(folded, id) + g];
    }

    /** `apply_events_batch`, the entity part: accumulate, then flush every accumulated entity. */
    method ApplyBatch(batch: seq<Derived>)
      requires Valid() && forall id :: UniqueIds(Sources(Into(folded, id) + TouchesOf(batch, id)))
      modifies this
      ensures Valid()
      ensures forall id :: Into(folded, id) == old(Into(folded, id)) + TouchesOf(batch, id)
    {
      hide RowOf, Describes, UniqueIds, Sources, TouchesOf, Grown, Into, Valid;
      var states := Accumulate(batch);
      var todo := states.Keys;
      ghost var was := folded;
      ghost var done: set<string> := {};
      GrownNothing(folded, batch);
      while todo != {}
        invariant Valid() && todo <= states.Keys && done + todo == states.Keys && done !! todo
        invariant Grown(folded, was, batch, done)
        decreases |todo|
      {
        var id :| id in todo;
        GrownStep(folded, was, batch, done, id);
        Flush(id, states[id], TouchesOf(batch, id));
        done, todo := done + {id}, todo - {id};
      }
      GrownAll(folded, was, batch, done);
    }
  }

  ghost predicate Grown(folded: map<string, set<Touch>>, was: map<string, set<Touch>>, batch: seq<Derived>, done: set<string>) {
    forall id :: Into(folded, id) == if id in done then Into(was, id) + TouchesOf(batch, id) else Into(was, id)
  }

  lemma GrownNothing(folded: map<string, set<Touch>>, batch: seq<Derived>)
    ensures Grown(folded, folded, batch, {})
  {
  }

  lemma GrownStep(folded: map<string, set<Touch>>, was: map<string, set<Touch>>, batch: seq<Derived>,
                  done: set<string>, id: string)
    requires Grown(folded, was, batch, done) && id !in done
    ensures Into(folded, id) == Into(was, id)
    ensures Grown(folded[id := Into(folded, id) + TouchesOf(batch, id)], was, batch, done + {id})
  {
    var next := folded[id := Into(folded, id) + TouchesOf(batch, id)];
    forall x ensures Into(next, x) == if x in done + {id} then Into(was, x) + TouchesOf(batch, x) else Into(was, x) {
      if x == id {} else {}
    }
  }

  lemma GrownAll(folded: map<string, set<Touch>>, was: map<string, set<Touch>>, batch: seq<Derived>, ids: set<string>)
    requires Grown(folded, was, batch, ids) && forall id :: id !in ids ==> TouchesOf(batch, id) == {}
    ensures forall id :: Into(folded, id) == Into(was, id) + TouchesOf(batch, id)
  {
    hide TouchesOf;
    forall id | id !in ids ensures Into(was, id) + TouchesOf(batch, id) == Into(was, id) {
    }
  }

  ghost function Into(folded: map<string, set<Touch>>, id: string): set<Touch> {
    if id in folded then folded[id] else {}
  }

  /** Two registries that folded the same touches hold the same rows. */
  lemma RegistriesConverge(a: Registry, b: Registry, id: string)
    requires a.Valid() && b.Valid() && id in a.rows && id in b.rows && Into(a.folded, id) == Into(b.folded, id)
    requires forall t, u :: t in Into(a.folded, id) && u in Into(a.folded, id) && t.key == u.key ==> t == u
    ensures a.rows[id] == b.rows[id]
  {
    hide RowOf;
    WritesConsistent(Into(a.folded, id));
    RowUnique(a.rows[id], b.rows[id], Into(a.folded, id));
  }
}

/** Idempotent ingest: `persist_events` and `_insert_rows` against a first-writer-wins table. */
module Ingest {
  import opened Keys

  type Id = nat

  /** One incoming canonical event.  `id` is absent when the row cannot be built; `storable` says that the
      database can hold its values; `canon` is its canonical form, absent when it does not validate. */
  datatype Item = Item(id: Option<Id>, storable: bool, canon: Option<nat>)

  type Table = map<Id, Item>

  /** `_rows_match` and `_rows_match_dict`. */
  predicate SameContent(a: Item, b: Item) {
    a.canon.Some? && a.canon == b.canon
  }

  /** The first event of a batch with an id. */
  function First(es: seq<Item>, id: Id): Option<Item> {
    if es == [] then None
    else
      var n := |es| - 1;
      var r := First(es[..n], id);
      if r.Some? then r else if es[n].id == Some(id) then Some(es[n]) else None
  }

  function Ids(es: seq<Item>): set<Id> {
    set e | e in es && e.id.Some? :: e.id.value
  }

  /** What ingesting a batch makes of the table: every id not stored yet gets its first event, if the
      database can hold that one. */
  ghost function Ingested(t: Table, es: seq<Item>): Table {
    t + map id | id in Ids(es) && id !in t && First(es, id).Some? && First(es, id).value.storable :: First(es, id).value
  }

  lemma {:induction false} FirstOfIds(es: seq<Item>, id: Id)
    ensures First(es, id).Some? <==> id in Ids(es)
    ensures First(es, id).Some? ==> First(es, id).value in es && First(es, id).value.id == Some(id)
  {
    if es != [] {
      var n := |es| - 1;
      FirstOfIds(es[..n], id);
      assert es == es[..n] + [es[n]];
    }
  }

  lemma {:induction false} FirstOfSum(es: seq<Item>, gs: seq<Item>, id: Id)
    ensures First(es + gs, id) == if First(es, id).Some? then First(es, id) else First(gs, id)
  {
    if gs == [] {
      assert es + gs == es;
    } else {
      var n := |gs| - 1;
      assert (es + gs)[..|es + gs| - 1] == es + gs[..n];
      FirstOfSum(es, gs[..n], id);
    }
  }

  lemma IngestedAt(t: Table, es: seq<Item>, id: Id)
    ensures id in Ingested(t, es) <==> id in t || (First(es, id).Some? && First(es, id).value.storable)
    ensures id in t ==> Ingested(t, es)[id] == t[id]
    ensures id !in t && id in Ingested(t, es) ==> Some(Ingested(t, es)[id]) == First(es, id)
  {
    FirstOfIds(es, id);
  }

  /** Ingest never changes an existing row, and ingesting a batch again changes nothing at all. */
  lemma Idempotent(t: Table, es: seq<Item>)
    ensures forall id :: id in t ==> id in Ingested(t, es) && Ingested(t, es)[id] == t[id]
    ensures Ingested(Ingested(t, es), es) == Ingested(t, es)
  {
    forall id ensures id in Ingested(Ingested(t, es), es) <==> id in Ingested(t, es) {
      IngestedAt(t, es, id);
      IngestedAt(Ingested(t, es), es, id);
    }
    forall id | id in Ingested(t, es) ensures Ingested(Ingested(t, es), es)[id] == Ingested(t, es)[id] {
      IngestedAt(Ingested(t, es), es, id);
    }
  }

  /** A new id whose first event the database refuses, in front of a storable one in the next part. */
  ghost predicate Shadows(t: Table, es: seq<Item>, gs: seq<Item>, id: Id) {
    && id !in t
    && First(es, id).Some? && !First(es, id).value.storable
    && First(gs, id).Some? && First(gs, id).value.storable
  }

  /** Cutting a batch in two leads to the same table exactly when no refused event hides a storable one
      with its id behind the cut: within one batch the later one is answered as a duplicate or conflict
      of an event that is never stored. */
  lemma CutsAgree(t: Table, es: seq<Item>, gs: seq<Item>)
    ensures Ingested(Ingested(t, es), gs) == Ingested(t, es + gs) <==> forall id :: !Shadows(t, es, gs, id)
  {
    if id :| Shadows(t, es, gs, id) {
      CutAt(t, es, gs, id);
    } else {
      forall id ensures id in Ingested(Ingested(t, es), gs) <==> id in Ingested(t, es + gs) {
        CutAt(t, es, gs, id);
      }
      forall id | id in Ingested(t, es + gs) ensures Ingested(Ingested(t, es), gs)[id] == Ingested(t, es + gs)[id] {
        CutAt(t, es, gs, id);
      }
    }
  }

  lemma CutAt(t: Table, es: seq<Item>, gs: seq<Item>, id: Id)
    ensures Shadows(t, es, gs, id) ==> id in Ingested(Ingested(t, es), gs) && id !in Ingested(t, es + gs)
    ensures !Shadows(t, es, gs, id) ==>
      && (id in Ingested(Ingested(t, es), gs) <==> id in Ingested(t, es + gs))
      && (id in Ingested(t, es + gs) ==> Ingested(Ingested(t, es), gs)[id] == Ingested(t, es + gs)[id])
  {
    IngestedAt(t, es, id);
    IngestedAt(Ingested(t, es), gs, id);
    IngestedAt(t, es + gs, id);
    FirstOfSum(es, gs, id);
    hide Ingested;
  }

  /** Such a cut exists: an event the database refuses, then a storable one with the same id. */
  lemma RefusedEventHidesStorable()
    ensures var es := [Item(Some(1), false, Some(0))]; var gs := [Item(Some(1), true, Some(0))];
      Ingested(Ingested(map[], es), gs) != Ingested(map[], es + gs)
  {
    var es, gs := [Item(Some(1), false, Some(0))], [Item(Some(1), true, Some(0))];
    FirstOfIds(es, 1);
    FirstOfIds(gs, 1);
    assert es[0] in es && gs[0] in gs;
    assert Shadows(map[], es, gs, 1);
    CutAt(map[], es, gs, 1);
  }

  /** When every well-formed event is storable, the table does not depend on how the list is cut. */
  lemma StorableCutsAgree(t: Table, es: seq<Item>, gs: seq<Item>)
    requires forall e :: e in es && e.id.Some? ==> e.storable
    ensures Ingested(Ingested(t, es), gs) == Ingested(t, es + gs)
  {
    CutsAgree(t, es, gs);
    forall id ensures !Shadows(t, es, gs, id) {
      FirstOfIds(es, id);
    }
  }

  /** A staged row that repeats a stored one. */
  predicate RepeatsRow(t: Table, e: Item) {
    e.id.Some? && e.storable && e.id.value in t && SameContent(t[e.id.value], e)
  }

  /** The event repeats the first one of the batch with its id or, being that one, the stored row. */
  predicate Repeats(t: Table, front: seq<Item>, e: Item) {
    e.id.Some? && if First(front, e.id.value).Some? then SameContent(First(front, e.id.value).value, e) else RepeatsRow(t, e)
  }

  /** Duplicates among the events of a batch. */
  function Duplicates(t: Table, es: seq<Item>): nat {
    if es == [] then 0
    else
      var n := |es| - 1;
      Duplicates(t, es[..n]) + if Repeats(t, es[..n], es[n]) then 1 else 0
  }

  /** Staged rows that repeat stored ones. */
  function Repeated(t: Table, staged: seq<Item>): nat {
    if staged == [] then 0
    else
      var n := |staged| - 1;
      Repeated(t, staged[..n]) + if RepeatsRow(t, staged[n]) then 1 else 0
  }

  lemma RepeatedWith(t: Table, staged: seq<Item>, e: Item)
    ensures Repeated(t, staged + [e]) == Repeated(t, staged) + if RepeatsRow(t, e) then 1 else 0
  {
    assert (staged + [e])[..|staged|] == staged;
  }

  lemma {:induction false} NothingRepeated(t: Table, staged: seq<Item>)
    requires forall i :: 0 <= i < |staged| ==> !RepeatsRow(t, staged[i])
    ensures Repeated(t, staged) == 0
  {
    if staged != [] {
      NothingRepeated(t, staged[..|staged| - 1]);
    }
  }

  // ---------------------------------------------------------------- the code

  datatype Result = Result(accepted: nat, duplicates: nat, rejected: nat)

  class Store {
    var table: Table

    constructor ()
      ensures table == map[]
    {
      table := map[];
    }

    /** The savepoint with the bulk insert: all rows or none. */
    method BulkInsert(staged: seq<Item>) returns (ok: bool)
      requires Staged(staged)
      modifies this
      ensures ok <==> forall e :: e in staged ==> e.storable && e.id.value !in old(table)
      ensures ok ==> table == Ingested(old(table), staged) && |table| == old(|table|) + |staged|
      ensures !ok ==> table == old(table)
    {
      ok := forall i :: 0 <= i < |staged| ==> staged[i].storable && staged[i].id.value !in table;
      assert forall i :: 0 <= i < |staged| ==> staged[i] in staged;
      if ok {
        InsertAll(staged);
      }
    }

    /** The statements of the bulk insert, none of which can fail. */
    method InsertAll(staged: seq<Item>)
      requires Staged(staged)
      requires forall i :: 0 <= i < |staged| ==> staged[i].id.Some? && staged[i].storable && staged[i].id.value !in table
      modifies this
      ensures table == Ingested(old(table), staged) && |table| == old(|table|) + |staged|
    {
      var i := 0;
      assert Ingested(table, staged[..0]) == table;
      hide Ingested, First, Staged;
      while i < |staged|
        invariant 0 <= i <= |staged|
        invariant table == Ingested(old(table), staged[..i]) && |table| == old(|table|) + i
      {
        InsertStep(old(table), staged, i);
        table := table[staged[i].id.value := staged[i]];
        i := i + 1;
      }
      assert staged[..i] == staged;
    }

    /** The savepoint with a single row. */
    method InsertOne(e: Item, r: Result) returns (out: Result)
      requires e.id.Some?
      modifies this
      ensures out.accepted + out.duplicates + out.rejected == r.accepted + r.duplicates + r.rejected + 1
      ensures |table| == old(|table|) + out.accepted - r.accepted
      ensures table == if e.storable && e.id.value !in old(table) then old(table)[e.id.value := e] else old(table)
      ensures out.duplicates == r.duplicates + if RepeatsRow(old(table), e) then 1 else 0
    {
      if !e.storable {
        return r.(rejected := r.rejected + 1);
      }
      if e.id.value in table {
        if SameContent(table[e.id.value], e) {
          return r.(duplicates := r.duplicates + 1);
        }
        return r.(rejected := r.rejected + 1);
      }
      NewRow(table, e.id.value, e);
      table := table[e.id.value := e];
      return r.(accepted := r.accepted + 1);
    }

    /** `_insert_rows`: the bulk path and the per-item fallback have one outcome. */
    method InsertRows(staged: seq<Item>, r: Result) returns (out: Result)
      requires Staged(staged)
      modifies this
      ensures table == Ingested(old(table), staged)
      ensures out.accepted + out.duplicates + out.rejected == r.accepted + r.duplicates + r.rejected + |staged|
      ensures |table| == old(|table|) + out.accepted - r.accepted
      ensures out.duplicates == r.duplicates + Repeated(old(table), staged)
    {
      out := r;
      var ok := BulkInsert(staged);
      if ok {
        NothingRepeated(old(table), staged);
        out := r.(accepted := r.accepted + |staged|);
        return;
      }
      out := InsertEach(staged, r);
    }

    /** The fallback: one savepoint for each row. */
    method InsertEach(staged: seq<Item>, r: Result) returns (out: Result)
      requires Staged(staged)
      modifies this
      ensures table == Ingested(old(table), staged)
      ensures out.accepted + out.duplicates + out.rejected == r.accepted + r.duplicates + r.rejected + |staged|
      ensures |table| == old(|table|) + out.accepted - r.accepted
      ensures out.duplicates == r.duplicates + Repeated(old(table), staged)
    {
      out := r;
      var i := 0;
      assert Ingested(table, staged[..0]) == table;
      assert Repeated(table, staged[..0]) == 0;
      hide Ingested, First, Staged, RepeatsRow, Repeated;
      while i < |staged|
        invariant 0 <= i <= |staged|
        invariant table == Ingested(old(table), staged[..i])
        invariant out.accepted + out.duplicates + out.rejected == r.accepted + r.duplicates + r.rejected + i
        invariant |table| == old(|table|) + out.accepted - r.accepted
        invariant out.duplicates == r.duplicates + Repeated(old(table), staged[..i])
      {
        EachStep(old(table), staged, i);
        out := InsertOne(staged[i], out);
        i := i + 1;
      }
      assert staged[..i] == staged;
    }

    /** `persist_events`: the new rows are accepted, the repetitions of a stored or staged event are duplicates,
        and everything else is rejected. */
    method PersistEvents(es: seq<Item>) returns (r: Result)
      modifies this
      ensures table == Ingested(old(table), es)
      ensures r.accepted + r.duplicates + r.rejected == |es|
      ensures |table| == old(|table|) + r.accepted
      ensures r.duplicates == Duplicates(old(table), es)
    {
      var staged: seq<Item>, out := Stage(es, table);
      StagedSame(table, es, staged);
      r := InsertRows(staged, out);
    }
  }

  /** Rows staged for insertion: well-formed, one per id. */
  ghost predicate Staged(staged: seq<Item>) {
    && (forall e :: e in staged ==> e.id.Some?)
    && (forall i, j :: 0 <= i < j < |staged| ==> staged[i].id != staged[j].id)
  }

  lemma NewRow(t: Table, id: Id, e: Item)
    requires id !in t
    ensures |t[id := e]| == |t| + 1
  {
    assert t[id := e].Keys == t.Keys + {id};
  }

  /** Inserting one more staged row. */
  lemma InsertStep(t: Table, staged: seq<Item>, i: nat)
    requires Staged(staged) && i < |staged|
    ensures var e := staged[i]; var before := Ingested(t, staged[..i]);
      && staged[i].id.Some?
      && (e.id.value in before <==> e.id.value in t)
      && Ingested(t, staged[..i + 1]) == (if e.storable && e.id.value !in before then before[e.id.value := e] else before)
      && |before[e.id.value := e]| == |before| + if e.id.value in before then 0 else 1
  {
    var e := staged[i];
    assert e in staged;
    NotStagedBefore(staged, i);
    assert staged[..i + 1] == staged[..i] + [e];
    var before := Ingested(t, staged[..i]);
    IngestedAt(t, staged[..i], e.id.value);
    StepTable(t, staged[..i], e, before);
    if e.id.value !in before { NewRow(before, e.id.value, e); } else { assert before[e.id.value := e].Keys == before.Keys; }
  }

  lemma StepTable(t: Table, front: seq<Item>, e: Item, before: Table)
    requires e.id.Some? && First(front, e.id.value).None? && before == Ingested(t, front)
    ensures Ingested(t, front + [e]) == if e.storable && e.id.value !in t then before[e.id.value := e] else before
  {
    var after := if e.storable && e.id.value !in t then before[e.id.value := e] else before;
    var now := Ingested(t, front + [e]);
    hide Ingested, First;
    forall id ensures id in now <==> id in after
      ensures id in after ==> now[id] == after[id]
    {
      StepAt(t, front, e, before, after, id);
    }
    assert now.Keys == after.Keys;
  }

  lemma StepAt(t: Table, front: seq<Item>, e: Item, before: Table, after: Table, id: Id)
    requires e.id.Some? && First(front, e.id.value).None? && before == Ingested(t, front)
    requires after == if e.storable && e.id.value !in t then before[e.id.value := e] else before
    ensures id in Ingested(t, front + [e]) <==> id in after
    ensures id in after ==> Ingested(t, front + [e])[id] == after[id]
  {
    IngestedAt(t, front, id);
    IngestedAt(t, front, e.id.value);
    IngestedAt(t, front + [e], id);
    FirstWith(front, e, id);
    hide Ingested, First;
  }

  lemma FirstWith(front: seq<Item>, e: Item, id: Id)
    ensures First(front + [e], id)
         == if First(front, id).Some? then First(front, id) else if e.id == Some(id) then Some(e) else None
  {
    assert (front + [e])[..|front|] == front;
  }

  lemma EachStep(t: Table, staged: seq<Item>, i: nat)
    requires Staged(staged) && i < |staged|
    ensures var e := staged[i]; var before := Ingested(t, staged[..i]);
      && e.id.Some?
      && Ingested(t, staged[..i + 1]) == (if e.storable && e.id.value !in before then before[e.id.value := e] else before)
      && Repeated(t, staged[..i + 1]) == Repeated(t, staged[..i]) + if RepeatsRow(before, e) then 1 else 0
  {
    hide Ingested, Staged, Repeated, RepeatsRow;
    InsertStep(t, staged, i);
    StillRepeats(t, staged, i);
    assert staged[..i + 1] == staged[..i] + [staged[i]];
    RepeatedWith(t, staged[..i], staged[i]);
  }

  /** What was inserted before a staged row does not concern it. */
  lemma StillRepeats(t: Table, staged: seq<Item>, i: nat)
    requires Staged(staged) && i < |staged|
    ensures RepeatsRow(Ingested(t, staged[..i]), staged[i]) <==> RepeatsRow(t, staged[i])
  {
    NotStagedBefore(staged, i);
    IngestedAt(t, staged[..i], staged[i].id.value);
  }

  lemma NotStagedBefore(staged: seq<Item>, i: nat)
    requires Staged(staged) && i < |staged|
    ensures staged[i].id.Some? && First(staged[..i], staged[i].id.value).None?
  {
    assert staged[i] in staged;
    FirstOfIds(staged[..i], staged[i].id.value);
  }

  /** The staging loop: malformed events are rejected, same-batch repetitions compared with the first. */
  method Stage(es: seq<Item>, ghost t: Table) returns (staged: seq<Item>, r: Result)
    ensures Staged(staged)
    ensures forall id :: First(staged, id) == First(es, id)
    ensures r.accepted == 0 && |staged| + r.duplicates + r.rejected == |es|
    ensures r.duplicates + Repeated(t, staged) == Duplicates(t, es)
  {
    staged, r := [], Result(0, 0, 0);
    var byId: map<Id, Item> := map[];
    var i := 0;
    hide First, Staged, Repeated, Duplicates, StagedFrom, RepeatsRow, SameContent;
    StageStarts(t, es);
    while i < |es|
      invariant 0 <= i <= |es| && StagedFrom(es[..i], staged, byId)
      invariant r.accepted == 0 && |staged| + r.duplicates + r.rejected == i
      invariant r.duplicates + Repeated(t, staged) == Duplicates(t, es[..i])
    {
      var e := es[i];
      assert es[..i + 1] == es[..i] + [e];
      StageStep(t, es[..i], staged, byId, e);
      if e.id.None? {
        r := r.(rejected := r.rejected + 1);
      } else if e.id.value in byId {
        if SameContent(byId[e.id.value], e) {
          r := r.(duplicates := r.duplicates + 1);
        } else {
          r := r.(rejected := r.rejected + 1);
        }
      } else {
        byId := byId[e.id.value := e];
        staged := staged + [e];
      }
      i := i + 1;
    }
    assert es[..i] == es;
    StagedAll(es, staged, byId);
  }

  /** `staged` holds the first event of each id in `front`, and `byId` finds it. */
  ghost predicate StagedFrom(front: seq<Item>, staged: seq<Item>, byId: map<Id, Item>) {
    && Staged(staged)
    && (forall id :: First(staged, id) == First(front, id))
    && (forall id :: id in byId <==> First(front, id).Some?)
    && (forall id :: id in byId ==> First(front, id) == Some(byId[id]))
  }

  lemma StageStarts(t: Table, es: seq<Item>)
    ensures StagedFrom(es[..0], [], map[]) && Repeated(t, []) == 0 == Duplicates(t, es[..0])
  {
  }

  lemma StagedAll(es: seq<Item>, staged: seq<Item>, byId: map<Id, Item>)
    requires StagedFrom(es, staged, byId)
    ensures Staged(staged) && forall id :: First(staged, id) == First(es, id)
  {
  }

  /** One more event: staged if it is the first with its id, otherwise compared with that one. */
  lemma StageStep(t: Table, front: seq<Item>, staged: seq<Item>, byId: map<Id, Item>, e: Item)
    requires StagedFrom(front, staged, byId)
    ensures var first := e.id.Some? && e.id.value !in byId;
      && StagedFrom(front + [e], if first then staged + [e] else staged, if first then byId[e.id.value := e] else byId)
      && Duplicates(t, front + [e]) == Duplicates(t, front)
           + (if first then (if RepeatsRow(t, e) then 1 else 0)
              else if e.id.Some? && SameContent(byId[e.id.value], e) then 1 else 0)
      && Repeated(t, staged + [e]) == Repeated(t, staged) + if RepeatsRow(t, e) then 1 else 0
  {
    assert (front + [e])[..|front|] == front;
    RepeatedWith(t, staged, e);
    if e.id.Some? && e.id.value !in byId {
      StageOne(staged, e);
    }
    hide Staged, Repeated;
  }

  lemma StageOne(staged: seq<Item>, e: Item)
    requires Staged(staged) && e.id.Some? && First(staged, e.id.value).None?
    ensures Staged(staged + [e])
    ensures forall id :: First(staged + [e], id) == if id == e.id.value then Some(e) else First(staged, id)
  {
    FirstOfIds(staged, e.id.value);
    assert (staged + [e])[..|staged|] == staged;
    forall i | 0 <= i < |staged| ensures staged[i].id != e.id {
      assert staged[i] in staged;
    }
  }

  lemma StagedSame(t: Table, es: seq<Item>, staged: seq<Item>)
    requires forall id :: First(staged, id) == First(es, id)
    ensures Ingested(t, staged) == Ingested(t, es)
  {
    forall id ensures id in Ingested(t, staged) <==> id in Ingested(t, es) {
      IngestedAt(t, staged, id);
      IngestedAt(t, es, id);
    }
    forall id | id in Ingested(t, es) ensures Ingested(t, staged)[id] == Ingested(t, es)[id] {
      IngestedAt(t, staged, id);
      IngestedAt(t, es, id);
    }
  }

  // ---------------------------------------------------------------- what a duplicate is

  /** An event is a duplicate exactly when it is valid and equal, in canonical form, to the first event of the batch
      with its id or, being that event, to the row stored under it. */
  lemma RepeatsMeans(t: Table, front: seq<Item>, e: Item)
    ensures Repeats(t, front, e) <==>
      && e.id.Some? && e.canon.Some?
      && match First(front, e.id.value)
         case Some(f) => f.canon == e.canon
         case None => e.storable && e.id.value in t && t[e.id.value].canon == e.canon
  {
  }

  /** Ingesting a batch of valid storable events with distinct new ids a second time finds only duplicates. */
  lemma {:induction false} AgainOnlyDuplicates(t: Table, all: seq<Item>, es: seq<Item>)
    requires es <= all && Staged(all) && forall e :: e in all ==> e.storable && e.canon.Some? && e.id.value !in t
    ensures Duplicates(Ingested(t, all), es) == |es|
  {
    if es != [] {
      var n := |es| - 1;
      AgainOnlyDuplicates(t, all, es[..n]);
      assert es[n] == all[n] && es[..n] == all[..n] && all[n] in all;
      NotStagedBefore(all, n);
      IngestedAt(t, all, all[n].id.value);
      FirstIs(all, n);
      hide Ingested, First, Staged;
    }
  }

  lemma FirstIs(all: seq<Item>, n: nat)
    requires Staged(all) && n < |all|
    ensures all[n].id.Some? && First(all, all[n].id.value) == Some(all[n])
  {
    assert all[n] in all;
    NotStagedBefore(all, n);
    assert all == all[..n] + [all[n]] + all[n + 1..];
    var id := all[n].id.value;
    FirstOfSum(all[..n], [all[n]], id);
    FirstOfSum(all[..n] + [all[n]], all[n + 1..], id);
    assert [all[n]][..0] == [];
  }
}

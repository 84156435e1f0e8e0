/** Rebuilding insights without losing identities: the insight phases of `_restore_lifecycle`. */
module LifecycleRebuild {
  import opened Keys
  import opened UniqueMatching

  datatype State = Open | Acknowledged | Suppressed | Expired | Resolved

  /** What identifies an episode: rule, rule version, dedupe key, entity, and the producing event ids. */
  datatype Evidence = Evidence(rule: string, version: nat, dedupe: Option<string>, entity: Option<string>, producers: set<nat>)

  /** The columns that an operator's decision or the rebuild may write. */
  datatype Columns = Columns(id: nat, state: State, created: nat, updated: nat, resolvedManually: bool)

  /** A row as snapshotted before the rebuild; `journal` is the state of its latest lifecycle record. */
  datatype Old = Old(columns: Columns, evidence: Evidence, journal: Option<State>) {

    /** An operator decided this row's state. */
    predicate Manual() {
      || columns.state in {Acknowledged, Suppressed, Expired}
      || (columns.state == Resolved && columns.resolvedManually)
      || journal == Some(columns.state)
    }
  }

  /** A derived row of the rebuilt table. */
  class Insight {
    const evidence: Evidence
    var columns: Columns

    constructor (columns: Columns, evidence: Evidence)
      ensures this.columns == columns && this.evidence == evidence
    {
      this.columns, this.evidence := columns, evidence;
    }
  }

  /** `same_insight`. */
  predicate SameInsight(was: Evidence, replayed: Evidence) {
    && was.rule == replayed.rule && was.version == replayed.version
    && was.dedupe == replayed.dedupe && was.entity == replayed.entity
    && was.producers * replayed.producers != {}
  }

  // ---------------------------------------------------------------- what the phases write

  /** The old row matched with replayed row `j`. */
  ghost function OldOf(olds: seq<Old>, m: Matching, j: nat): (r: Option<Old>)
    requires |m| == |olds|
  {
    if i: nat :| i < |m| && m[i] == Some(j) then Some(olds[i]) else None
  }

  lemma OldOfMatched(olds: seq<Old>, m: Matching, i: nat)
    requires |m| == |olds| && Injective(m) && i < |m| && m[i].Some?
    ensures OldOf(olds, m, m[i].value) == Some(olds[i])
  {
  }

  /** Phase 1 closes replayed rows whose operator-decided state is not open. */
  function Released(c: Columns, o: Option<Old>): Columns {
    if o.Some? && c.state == Open && o.value.Manual() && o.value.columns.state != Open
    then c.(state := o.value.columns.state) else c
  }

  /** Phase 2 restores identity, creation time and operator decisions. */
  function Restored(c: Columns, o: Option<Old>): Columns {
    match o
    case None => c
    case Some(was) =>
      var kept := c.(id := was.columns.id, created := was.columns.created);
      if !was.Manual() then kept
      else kept.(state := was.columns.state, updated := was.columns.updated,
                 resolvedManually := kept.resolvedManually || (was.columns.state == Resolved && was.columns.resolvedManually))
  }

  /** What the rebuild writes to a row, case by case: identity and creation time always come back; a decision
      of an operator comes back too, whichever way it was recorded; otherwise the replay decides. */
  lemma RestoredMeans(c: Columns, was: Old)
    ensures var out := Restored(c, Some(was));
      && out.id == was.columns.id && out.created == was.columns.created
      && (was.columns.state in {Acknowledged, Suppressed, Expired} || was.journal == Some(was.columns.state) ==>
            out.state == was.columns.state && out.updated == was.columns.updated)
      && (was.columns.state == Resolved && was.columns.resolvedManually ==>
            out.state == Resolved && out.updated == was.columns.updated && out.resolvedManually)
      && ((was.columns.state == Open || (was.columns.state == Resolved && !was.columns.resolvedManually))
          && was.journal != Some(was.columns.state) ==>
            out.state == c.state && out.updated == c.updated && out.resolvedManually == c.resolvedManually)
    ensures Restored(c, None) == c
  {
  }

  // ---------------------------------------------------------------- the constraints of the table

  /** A row of the table: a replayed one, or an old one kept although nothing replayed matches it. */
  datatype Slot = FreshRow(j: nat) | Retained(i: nat)

  datatype Image = Image(id: nat, state: State, dedupe: Option<string>) {
    predicate IsOpen() { state.Open? }
  }

  type Images = map<Slot, Image>

  function ImageOf(c: Columns, e: Evidence): Image {
    Image(c.id, c.state, e.dedupe)
  }

  /** The partial unique index: at most one open insight per dedupe key. */
  predicate OpenClash(a: Image, b: Image) {
    a.IsOpen() && b.IsOpen() && a.dedupe.Some? && a.dedupe == b.dedupe
  }

  predicate Conflict(a: Image, b: Image) {
    a.id == b.id || OpenClash(a, b)
  }

  ghost predicate Lawful(images: Images) {
    forall s, t :: s in images && t in images && s != t ==> !Conflict(images[s], images[t])
  }

  /** A flush updates and inserts rows one by one, in an order nobody controls: whichever rows have been
      written so far, the table satisfies its unique indexes. */
  ghost predicate FlushSafe(before: Images, after: Images) {
    && Lawful(before)
    && Lawful(after)
    && forall s, t :: s in before && t in after && s != t ==> !Conflict(before[s], after[t])
  }

  function Derived(columns: seq<Columns>, replayed: seq<Evidence>): Images
    requires |columns| == |replayed|
  {
    map j: nat | j < |replayed| :: FreshRow(j) := ImageOf(columns[j], replayed[j])
  }

  ghost function Middle(columns: seq<Columns>, replayed: seq<Evidence>, olds: seq<Old>, m: Matching): Images
    requires |columns| == |replayed| && |m| == |olds|
  {
    map j: nat | j < |replayed| :: FreshRow(j) := ImageOf(Released(columns[j], OldOf(olds, m, j)), replayed[j])
  }

  ghost function Final(columns: seq<Columns>, replayed: seq<Evidence>, olds: seq<Old>, m: Matching): Images
    requires |columns| == |replayed| && |m| == |olds|
  {
    (map j: nat | j < |replayed| :: FreshRow(j) := ImageOf(Restored(columns[j], OldOf(olds, m, j)), replayed[j]))
    + (map i: nat | i < |olds| && m[i].None? :: Retained(i) := ImageOf(olds[i].columns, olds[i].evidence))
  }

  /** The check on `final_open`: no two rows that end open share a dedupe key. */
  ghost predicate PlanOk(columns: seq<Columns>, replayed: seq<Evidence>, olds: seq<Old>, m: Matching)
    requires |columns| == |replayed| && |m| == |olds|
  {
    var images := Final(columns, replayed, olds, m);
    forall s, t :: s in images && t in images && s != t ==> !OpenClash(images[s], images[t])
  }

  /** Fresh ids are newly drawn: distinct, and none is an old one. */
  ghost predicate IdsApart(columns: seq<Columns>, olds: seq<Old>) {
    && (forall i, j :: 0 <= i < j < |columns| ==> columns[i].id != columns[j].id)
    && (forall i, j :: 0 <= i < j < |olds| ==> olds[i].columns.id != olds[j].columns.id)
    && (forall i, j :: 0 <= i < |columns| && 0 <= j < |olds| ==> columns[i].id != olds[j].columns.id)
  }

  lemma FinalImages(columns: seq<Columns>, replayed: seq<Evidence>, olds: seq<Old>, m: Matching)
    requires |columns| == |replayed| && |m| == |olds|
    ensures forall s :: s in Final(columns, replayed, olds, m) <==>
      match s { case FreshRow(j) => j < |replayed| case Retained(i) => i < |olds| && m[i].None? }
    ensures forall j: nat :: j < |replayed| ==>
      Final(columns, replayed, olds, m)[FreshRow(j)] == ImageOf(Restored(columns[j], OldOf(olds, m, j)), replayed[j])
    ensures forall i: nat :: i < |olds| && m[i].None? ==>
      Final(columns, replayed, olds, m)[Retained(i)] == ImageOf(olds[i].columns, olds[i].evidence)
  {
  }

  /** Neither flush can trip a unique index, in whatever order it writes the rows. */
  lemma FlushesAreSafe(columns: seq<Columns>, replayed: seq<Evidence>, olds: seq<Old>, m: Matching)
    requires |columns| == |replayed| && |m| == |olds| && Injective(m)
    requires IdsApart(columns, olds) && Lawful(Derived(columns, replayed)) && PlanOk(columns, replayed, olds, m)
    ensures FlushSafe(Derived(columns, replayed), Middle(columns, replayed, olds, m))
    ensures FlushSafe(Middle(columns, replayed, olds, m), Final(columns, replayed, olds, m))
  {
    FirstFlush(columns, replayed, olds, m);
    FinalLawful(columns, replayed, olds, m);
    SecondFlush(columns, replayed, olds, m);
  }

  lemma FirstFlush(columns: seq<Columns>, replayed: seq<Evidence>, olds: seq<Old>, m: Matching)
    requires |columns| == |replayed| && |m| == |olds| && Lawful(Derived(columns, replayed))
    ensures FlushSafe(Derived(columns, replayed), Middle(columns, replayed, olds, m))
  {
    var before, after := Derived(columns, replayed), Middle(columns, replayed, olds, m);
    hide OldOf;
    forall s | s in after ensures s in before && after[s].id == before[s].id && after[s].dedupe == before[s].dedupe
      && (after[s].IsOpen() ==> before[s].IsOpen()) {
    }
    hide Derived, Middle;
  }

  lemma FinalLawful(columns: seq<Columns>, replayed: seq<Evidence>, olds: seq<Old>, m: Matching)
    requires |columns| == |replayed| && |m| == |olds| && Injective(m)
    requires IdsApart(columns, olds) && PlanOk(columns, replayed, olds, m)
    ensures Lawful(Final(columns, replayed, olds, m))
  {
    var images := Final(columns, replayed, olds, m);
    forall s, t | s in images && t in images && s != t ensures images[s].id != images[t].id {
      FinalIdsDiffer(columns, replayed, olds, m, s, t);
    }
    hide Final;
  }

  /** The id a slot ends with: its old id when it has one. */
  ghost function FinalId(columns: seq<Columns>, olds: seq<Old>, m: Matching, s: Slot): nat
    requires |m| == |olds| && match s { case FreshRow(j) => j < |columns| case Retained(i) => i < |olds| }
  {
    match s
    case FreshRow(j) => Restored(columns[j], OldOf(olds, m, j)).id
    case Retained(i) => olds[i].columns.id
  }

  lemma FinalIdsDiffer(columns: seq<Columns>, replayed: seq<Evidence>, olds: seq<Old>, m: Matching, s: Slot, t: Slot)
    requires |columns| == |replayed| && |m| == |olds| && Injective(m) && IdsApart(columns, olds)
    requires s in Final(columns, replayed, olds, m) && t in Final(columns, replayed, olds, m) && s != t
    ensures Final(columns, replayed, olds, m)[s].id != Final(columns, replayed, olds, m)[t].id
  {
    FinalImages(columns, replayed, olds, m);
    hide Final;
    SlotSource(columns, olds, m, s);
    SlotSource(columns, olds, m, t);
  }

  /** Either the slot keeps its replayed id, or it carries the id of one old row, matched or retained. */
  lemma SlotSource(columns: seq<Columns>, olds: seq<Old>, m: Matching, s: Slot)
    requires |m| == |olds| && match s { case FreshRow(j) => j < |columns| case Retained(i) => i < |olds| && m[i].None? }
    ensures match s
      case FreshRow(j) =>
        if OldOf(olds, m, j).None? then FinalId(columns, olds, m, s) == columns[j].id
        else exists i: nat :: i < |olds| && m[i] == Some(j) && FinalId(columns, olds, m, s) == olds[i].columns.id
      case Retained(i) => FinalId(columns, olds, m, s) == olds[i].columns.id
  {
  }

  lemma SecondFlush(columns: seq<Columns>, replayed: seq<Evidence>, olds: seq<Old>, m: Matching)
    requires |columns| == |replayed| && |m| == |olds| && IdsApart(columns, olds)
    requires Lawful(Middle(columns, replayed, olds, m)) && Lawful(Final(columns, replayed, olds, m))
    ensures FlushSafe(Middle(columns, replayed, olds, m), Final(columns, replayed, olds, m))
  {
    var before, after := Middle(columns, replayed, olds, m), Final(columns, replayed, olds, m);
    FinalImages(columns, replayed, olds, m);
    forall s, t | s in before && t in after && s != t ensures !Conflict(before[s], after[t]) {
      OpenStaysOpen(columns, replayed, olds, m, s.j);
      FreshIdApart(columns, replayed, olds, m, s.j, t);
      hide Final, Middle, OldOf;
      assert !OpenClash(after[s], after[t]);
    }
  }

  /** After phase 1 no row closes any more. */
  lemma OpenStaysOpen(columns: seq<Columns>, replayed: seq<Evidence>, olds: seq<Old>, m: Matching, j: nat)
    requires |columns| == |replayed| && |m| == |olds| && j < |replayed|
    ensures var s := FreshRow(j);
      && s in Middle(columns, replayed, olds, m) && s in Final(columns, replayed, olds, m)
      && Middle(columns, replayed, olds, m)[s].dedupe == Final(columns, replayed, olds, m)[s].dedupe
      && (Middle(columns, replayed, olds, m)[s].IsOpen() ==> Final(columns, replayed, olds, m)[s].IsOpen())
      && Middle(columns, replayed, olds, m)[s].id == columns[j].id
  {
    hide OldOf;
  }

  lemma FreshIdApart(columns: seq<Columns>, replayed: seq<Evidence>, olds: seq<Old>, m: Matching, j: nat, t: Slot)
    requires |columns| == |replayed| && |m| == |olds| && j < |replayed| && IdsApart(columns, olds)
    requires t in Final(columns, replayed, olds, m) && t != FreshRow(j)
    ensures Final(columns, replayed, olds, m)[t].id != columns[j].id
  {
    FinalImages(columns, replayed, olds, m);
    hide Final;
    SlotSource(columns, olds, m, t);
  }

  /** Every pre-rebuild identity exists exactly once afterwards, with its operator's decision; a row that
      nothing replayed matches is kept as it was. */
  lemma IdentitiesPreserved(columns: seq<Columns>, replayed: seq<Evidence>, olds: seq<Old>, m: Matching, i: nat)
    requires |columns| == |replayed| && |m| == |olds| && Injective(m) && IdsApart(columns, olds) && i < |olds|
    requires m[i].Some? ==> m[i].value < |replayed|
    ensures var images := Final(columns, replayed, olds, m);
      var home := if m[i].Some? then FreshRow(m[i].value) else Retained(i);
      && home in images
      && (forall s :: s in images ==> (images[s].id == olds[i].columns.id <==> s == home))
      && (m[i].None? || olds[i].Manual() ==> images[home].state == olds[i].columns.state)
  {
    var home := if m[i].Some? then FreshRow(m[i].value) else Retained(i);
    FinalImages(columns, replayed, olds, m);
    if m[i].Some? { OldOfMatched(olds, m, i); }
    var images := Final(columns, replayed, olds, m);
    hide Final;
    assert images[home].id == olds[i].columns.id;
    forall s | s in images && s != home ensures images[s].id != olds[i].columns.id {
      FinalIdsDiffer(columns, replayed, olds, m, s, home);
    }
  }

  // ---------------------------------------------------------------- the phases

  function EvidenceOf(rows: seq<Insight>): seq<Evidence> {
    seq(|rows|, j requires 0 <= j < |rows| => rows[j].evidence)
  }

  function ColumnsOf(rows: seq<Insight>): seq<Columns>
    reads rows
  {
    seq(|rows|, j requires 0 <= j < |rows| reads rows => rows[j].columns)
  }

  function OldEvidence(olds: seq<Old>): seq<Evidence> {
    seq(|olds|, i requires 0 <= i < |olds| => olds[i].evidence)
  }

  ghost predicate Distinct(rows: seq<Insight>) {
    forall i, j :: 0 <= i < j < |rows| ==> rows[i] != rows[j]
  }

  /** `old_by_fresh`. */
  method OldByReplayed(olds: seq<Old>, m: Matching, n: nat) returns (r: seq<Option<Old>>)
    requires |m| == |olds| && Injective(m)
    ensures |r| == n && forall j :: 0 <= j < n ==> r[j] == OldOf(olds, m, j)
  {
    r := [];
    while |r| < n
      invariant |r| <= n && forall j :: 0 <= j < |r| ==> r[j] == OldOf(olds, m, j)
    {
      var i, found := 0, None;
      while i < |m|
        invariant 0 <= i <= |m|
        invariant found.Some? ==> OldOf(olds, m, |r|) == found
        invariant found.None? ==> forall h :: 0 <= h < i ==> m[h] != Some(|r|)
      {
        if m[i] == Some(|r|) {
          OldOfMatched(olds, m, i);
          found := Some(olds[i]);
        }
        i := i + 1;
      }
      r := r + [found];
    }
  }

  /** The rows a plan has claimed an open slot for, in the order the check visits them. */
  ghost predicate Claims(plan: seq<Image>, n: nat, claimed: set<string>)
    requires n <= |plan|
  {
    && (forall i, j :: 0 <= i < j < n ==> !OpenClash(plan[i], plan[j]))
    && (forall k :: k in claimed <==> exists i :: 0 <= i < n && plan[i].IsOpen() && plan[i].dedupe == Some(k))
  }

  /** The two loops over `final_open`. */
  method CheckOpen(plan: seq<Image>) returns (ok: bool)
    ensures ok <==> forall i, j :: 0 <= i < j < |plan| ==> !OpenClash(plan[i], plan[j])
  {
    var claimed: set<string> := {};
    var n := 0;
    while n < |plan|
      invariant 0 <= n <= |plan| && Claims(plan, n, claimed)
    {
      if plan[n].IsOpen() && plan[n].dedupe.Some? {
        var key := plan[n].dedupe.value;
        if key in claimed {
          return false;
        }
        claimed := claimed + {key};
      }
      n := n + 1;
    }
    return true;
  }

  /** `slots` lists every slot of the final table once, `plan` their images. */
  ghost predicate Lists(plan: seq<Image>, slots: seq<Slot>, images: Images) {
    && |plan| == |slots|
    && (forall i, j :: 0 <= i < j < |slots| ==> slots[i] != slots[j])
    && (forall i :: 0 <= i < |slots| ==> slots[i] in images && plan[i] == images[slots[i]])
    && (forall s :: s in images ==> s in slots)
  }

  lemma PlanOkAsList(plan: seq<Image>, slots: seq<Slot>, images: Images)
    requires Lists(plan, slots, images)
    ensures (forall i, j :: 0 <= i < j < |plan| ==> !OpenClash(plan[i], plan[j]))
       <==> (forall s, t :: s in images && t in images && s != t ==> !OpenClash(images[s], images[t]))
  {
    if forall i, j :: 0 <= i < j < |plan| ==> !OpenClash(plan[i], plan[j]) {
      forall s, t | s in images && t in images && s != t ensures !OpenClash(images[s], images[t]) {
        var i :| 0 <= i < |slots| && slots[i] == s;
        var j :| 0 <= j < |slots| && slots[j] == t;
        if i < j { assert !OpenClash(plan[i], plan[j]); } else { assert !OpenClash(plan[j], plan[i]); }
      }
    } else {
      var i, j :| 0 <= i < j < |plan| && OpenClash(plan[i], plan[j]);
      assert slots[i] in images && slots[j] in images && OpenClash(images[slots[i]], images[slots[j]]);
    }
  }

  /** Slots of one half of the final table. */
  ghost predicate Half(plan: seq<Image>, slots: seq<Slot>, images: Images, derived: bool) {
    && |plan| == |slots|
    && (forall i, j :: 0 <= i < j < |slots| ==> slots[i] != slots[j])
    && (forall i :: 0 <= i < |slots| ==> slots[i] in images && plan[i] == images[slots[i]])
    && (forall s :: s in slots ==> s.FreshRow? == derived)
    && (forall s :: s in images && s.FreshRow? == derived ==> s in slots)
  }

  lemma TwoHalves(p: seq<Image>, a: seq<Slot>, q: seq<Image>, b: seq<Slot>, images: Images)
    requires Half(p, a, images, true) && Half(q, b, images, false)
    ensures Lists(p + q, a + b, images)
  {
    forall i, j | 0 <= i < j < |a + b| ensures (a + b)[i] != (a + b)[j] {
      if i < |a| <= j { assert a[i] in a && b[j - |a|] in b; }
    }
  }

  method PlanDerived(columns: seq<Columns>, replayed: seq<Evidence>, ghost olds: seq<Old>, ghost m: Matching,
                     byRow: seq<Option<Old>>)
      returns (plan: seq<Image>, ghost slots: seq<Slot>)
    requires |columns| == |replayed| == |byRow| && |m| == |olds|
    requires forall j :: 0 <= j < |byRow| ==> byRow[j] == OldOf(olds, m, j)
    ensures Half(plan, slots, Final(columns, replayed, olds, m), true)
  {
    hide OldOf, Restored, ImageOf;
    FinalImages(columns, replayed, olds, m);
    ghost var images := Final(columns, replayed, olds, m);
    hide Final;
    plan, slots := [], [];
    while |plan| < |columns|
      invariant |plan| <= |columns| && |slots| == |plan|
      invariant forall k :: 0 <= k < |slots| ==> slots[k] == FreshRow(k) && slots[k] in images && plan[k] == images[slots[k]]
    {
      var j := |plan|;
      plan, slots := plan + [ImageOf(Restored(columns[j], byRow[j]), replayed[j])], slots + [FreshRow(j)];
    }
    forall s | s in images && s.FreshRow? ensures s in slots {
      assert slots[s.j] == s;
    }
  }

  method PlanRetained(ghost columns: seq<Columns>, ghost replayed: seq<Evidence>, olds: seq<Old>, m: Matching)
      returns (plan: seq<Image>, ghost slots: seq<Slot>)
    requires |columns| == |replayed| && |m| == |olds|
    ensures Half(plan, slots, Final(columns, replayed, olds, m), false)
  {
    hide OldOf, Restored, ImageOf;
    ghost var images := Final(columns, replayed, olds, m);
    hide Final;
    plan, slots := [], [];
    var i := 0;
    while i < |olds|
      invariant 0 <= i <= |olds| && |slots| == |plan|
      invariant forall k :: 0 <= k < |slots| ==>
        slots[k].Retained? && slots[k].i < i && slots[k] in images && plan[k] == images[slots[k]]
      invariant forall k, l :: 0 <= k < l < |slots| ==> slots[k] != slots[l]
      invariant forall h: nat :: h < i && m[h].None? ==> Retained(h) in slots
    {
      if m[i].None? {
        RetainedAt(columns, replayed, olds, m, i);
        plan, slots := plan + [ImageOf(olds[i].columns, olds[i].evidence)], slots + [Retained(i)];
      }
      i := i + 1;
    }
    forall s | s in images && !s.FreshRow? ensures s in slots {
      OnlyRetained(columns, replayed, olds, m, s);
    }
  }

  lemma RetainedAt(columns: seq<Columns>, replayed: seq<Evidence>, olds: seq<Old>, m: Matching, i: nat)
    requires |columns| == |replayed| && |m| == |olds| && i < |olds| && m[i].None?
    ensures Retained(i) in Final(columns, replayed, olds, m)
    ensures Final(columns, replayed, olds, m)[Retained(i)] == ImageOf(olds[i].columns, olds[i].evidence)
  {
    FinalImages(columns, replayed, olds, m);
    hide Final;
  }

  lemma OnlyRetained(columns: seq<Columns>, replayed: seq<Evidence>, olds: seq<Old>, m: Matching, s: Slot)
    requires |columns| == |replayed| && |m| == |olds| && s in Final(columns, replayed, olds, m) && s.Retained?
    ensures s.i < |olds| && m[s.i].None?
  {
    FinalImages(columns, replayed, olds, m);
    hide Final;
  }

  /** The rows that will exist, derived ones first, in the order the check visits them. */
  method Plan(columns: seq<Columns>, replayed: seq<Evidence>, olds: seq<Old>, m: Matching, byRow: seq<Option<Old>>)
      returns (plan: seq<Image>, ghost slots: seq<Slot>)
    requires |columns| == |replayed| == |byRow| && |m| == |olds|
    requires forall j :: 0 <= j < |byRow| ==> byRow[j] == OldOf(olds, m, j)
    ensures Lists(plan, slots, Final(columns, replayed, olds, m))
  {
    hide Half, Lists, Final, OldOf;
    var p, a := PlanDerived(columns, replayed, olds, m, byRow);
    var q, b := PlanRetained(columns, replayed, olds, m);
    TwoHalves(p, a, q, b, Final(columns, replayed, olds, m));
    plan, slots := p + q, a + b;
  }

  /** Phase 1: release open slots before any row is reopened. */
  method Release(rows: seq<Insight>, byRow: seq<Option<Old>>)
    requires Distinct(rows) && |byRow| == |rows|
    modifies rows`columns
    ensures forall j :: 0 <= j < |rows| ==> rows[j].columns == Released(old(rows[j].columns), byRow[j])
  {
    var j := 0;
    while j < |rows|
      invariant 0 <= j <= |rows|
      invariant forall k :: 0 <= k < j ==> rows[k].columns == Released(old(rows[k].columns), byRow[k])
      invariant forall k :: j <= k < |rows| ==> rows[k].columns == old(rows[k].columns)
    {
      var row, o := rows[j], byRow[j];
      assert forall k :: 0 <= k < |rows| && k != j ==> rows[k] != row;
      if o.Some? && row.columns.state == Open && o.value.Manual() && o.value.columns.state != Open {
        row.columns := row.columns.(state := o.value.columns.state);
      }
      j := j + 1;
    }
  }

  /** Phase 2, on one matched row. */
  method RestoreRow(row: Insight, was: Old)
    modifies row`columns
    ensures row.columns == Restored(old(row.columns), Some(was))
  {
    row.columns := row.columns.(id := was.columns.id, created := was.columns.created);
    if was.Manual() {
      row.columns := row.columns.(state := was.columns.state, updated := was.columns.updated);
      if was.columns.state == Resolved && was.columns.resolvedManually {
        row.columns := row.columns.(resolvedManually := true);
      }
    }
  }

  /** Phase 2: restore matched rows, keep the unmatched old ones. */
  method Restore(rows: seq<Insight>, olds: seq<Old>, m: Matching) returns (retained: map<nat, Insight>)
    requires Distinct(rows) && |m| == |olds| && Injective(m)
    requires forall i :: 0 <= i < |m| && m[i].Some? ==> m[i].value < |rows|
    modifies rows`columns
    ensures forall j :: 0 <= j < |rows| ==> rows[j].columns == Restored(old(rows[j].columns), OldOf(olds, m, j))
    ensures forall i: nat :: i in retained <==> i < |olds| && m[i].None?
    ensures forall i :: i in retained ==> retained[i].columns == olds[i].columns && retained[i].evidence == olds[i].evidence
  {
    hide OldOf;
    retained := map[];
    var i := 0;
    while i < |olds|
      invariant 0 <= i <= |olds|
      invariant forall h: nat :: h in retained <==> h < i && m[h].None?
      invariant forall h :: h in retained ==> fresh(retained[h])
      invariant forall h :: h in retained ==> retained[h].columns == olds[h].columns && retained[h].evidence == olds[h].evidence
      invariant forall h :: 0 <= h < i && m[h].Some? ==>
        rows[m[h].value].columns == Restored(old(rows[m[h].value].columns), Some(olds[h]))
      invariant forall j: nat :: j < |rows| && (forall h :: 0 <= h < i ==> m[h] != Some(j)) ==> rows[j].columns == old(rows[j].columns)
    {
      if m[i].Some? {
        RestoreRow(rows[m[i].value], olds[i]);
      } else {
        var row := new Insight(olds[i].columns, olds[i].evidence);
        retained := retained[i := row];
      }
      i := i + 1;
    }
    forall j: nat | j < |rows| ensures rows[j].columns == Restored(old(rows[j].columns), OldOf(olds, m, j)) {
      RestoredAt(olds, m, j);
    }
  }

  lemma RestoredAt(olds: seq<Old>, m: Matching, j: nat)
    requires |m| == |olds| && Injective(m)
    ensures forall h :: 0 <= h < |m| && m[h] == Some(j) ==> OldOf(olds, m, j) == Some(olds[h])
    ensures (forall h :: 0 <= h < |m| ==> m[h] != Some(j)) ==> OldOf(olds, m, j) == None
  {
  }

  /** The replayed rows can be given the old identities without guessing. */
  ghost predicate Restorable(columns: seq<Columns>, replayed: seq<Evidence>, olds: seq<Old>)
    requires |columns| == |replayed|
  {
    && Unambiguous(OldEvidence(olds), replayed, SameInsight, |olds|)
    && forall m: Matching :: Matches(m, OldEvidence(olds), replayed, SameInsight, |olds|) ==> PlanOk(columns, replayed, olds, m)
  }

  /** Two rows tell of one episode: same rule and version, same dedupe key, same entity, and an event that
      produced both. */
  ghost predicate OneEpisode(a: Evidence, b: Evidence) {
    && a.rule == b.rule && a.version == b.version && a.dedupe == b.dedupe && a.entity == b.entity
    && exists p :: p in a.producers && p in b.producers
  }

  /** A row that ends with an old id was matched with that old row, and tells of its episode; an unmatched old row
      tells of an episode that no replayed row tells of. */
  lemma MatchedMeans(columns: seq<Columns>, replayed: seq<Evidence>, olds: seq<Old>, m: Matching)
    requires |columns| == |replayed| && Matches(m, OldEvidence(olds), replayed, SameInsight, |olds|) && IdsApart(columns, olds)
    ensures forall i: nat, j: nat :: i < |olds| && j < |columns| && Restored(columns[j], OldOf(olds, m, j)).id == olds[i].columns.id ==>
      OneEpisode(olds[i].evidence, replayed[j])
    ensures forall i: nat, j: nat :: i < |olds| && m[i].None? && j < |columns| ==> !OneEpisode(olds[i].evidence, replayed[j])
  {
    forall i: nat, j: nat | i < |olds| && j < |columns|
      ensures Restored(columns[j], OldOf(olds, m, j)).id == olds[i].columns.id ==> OneEpisode(olds[i].evidence, replayed[j])
      ensures m[i].None? ==> !OneEpisode(olds[i].evidence, replayed[j])
    {
      SameInsightMeans(olds[i].evidence, replayed[j]);
      assert Candidate(OldEvidence(olds), replayed, SameInsight, i, j) <==> SameInsight(olds[i].evidence, replayed[j]);
      IdMeansMatch(columns, olds, m, i, j);
      hide OneEpisode, SameInsight, Candidate, IdsApart;
    }
  }

  lemma SameInsightMeans(a: Evidence, b: Evidence)
    ensures SameInsight(a, b) <==> OneEpisode(a, b)
  {
    if OneEpisode(a, b) {
      var p :| p in a.producers && p in b.producers;
      assert p in a.producers * b.producers;
    }
    if SameInsight(a, b) {
      var p :| p in a.producers * b.producers;
    }
  }

  lemma IdMeansMatch(columns: seq<Columns>, olds: seq<Old>, m: Matching, i: nat, j: nat)
    requires |m| == |olds| && IdsApart(columns, olds) && i < |olds| && j < |columns|
    ensures Restored(columns[j], OldOf(olds, m, j)).id == olds[i].columns.id ==> m[i] == Some(j)
  {
    SlotSource(columns, olds, m, FreshRow(j));
  }

  datatype Outcome = Refused | Done(m: Matching, middle: seq<Columns>, retained: map<nat, Insight>)

  /** `_restore_lifecycle` on insights: refuse and change nothing, or pass through two flushes that cannot
      violate the table's indexes to a table that preserves every identity. */
  method RestoreLifecycle(rows: seq<Insight>, olds: seq<Old>) returns (r: Outcome)
    requires Distinct(rows) && IdsApart(ColumnsOf(rows), olds)
    requires Lawful(Derived(ColumnsOf(rows), EvidenceOf(rows)))
    modifies rows`columns
    ensures r.Refused? ==> unchanged(rows)
    ensures r.Done? <==> Restorable(old(ColumnsOf(rows)), EvidenceOf(rows), olds)
    ensures r.Done? ==> Matches(r.m, OldEvidence(olds), EvidenceOf(rows), SameInsight, |olds|) && Injective(r.m)
    ensures r.Done? ==> FlushSafe(old(Derived(ColumnsOf(rows), EvidenceOf(rows))), Middle(old(ColumnsOf(rows)), EvidenceOf(rows), olds, r.m))
    ensures r.Done? ==> FlushSafe(Middle(old(ColumnsOf(rows)), EvidenceOf(rows), olds, r.m), Final(old(ColumnsOf(rows)), EvidenceOf(rows), olds, r.m))
    ensures r.Done? ==> forall j :: 0 <= j < |rows| ==> rows[j].columns == Restored(old(rows[j].columns), OldOf(olds, r.m, j))
    ensures r.Done? ==> forall i: nat :: i in r.retained <==> i < |olds| && r.m[i].None?
    ensures r.Done? ==> forall i :: i in r.retained ==> r.retained[i].columns == olds[i].columns && r.retained[i].evidence == olds[i].evidence
    ensures r.Done? ==> forall i: nat, j: nat :: i < |olds| && j < |rows| && rows[j].columns.id == olds[i].columns.id ==>
      OneEpisode(olds[i].evidence, rows[j].evidence)
    ensures r.Done? ==> forall i, j: nat :: i in r.retained && j < |rows| ==> !OneEpisode(olds[i].evidence, rows[j].evidence)
  {
    hide Final, Middle, Derived, OldOf, FlushSafe, Lawful, Unambiguous, Matches, Injective, Lists, IdsApart;
    var columns := ColumnsOf(rows);
    var evidence := EvidenceOf(rows);
    var matching := UniqueMatches(OldEvidence(olds), evidence, SameInsight);
    if matching.None? {
      return Refused;
    }
    var m := matching.value;
    OnlyMatching(OldEvidence(olds), evidence, SameInsight, m);
    MatchedRows(OldEvidence(olds), evidence, SameInsight, m);
    var byRow := OldByReplayed(olds, m, |rows|);
    var plan, slots := Plan(columns, evidence, olds, m, byRow);
    PlanOkAsList(plan, slots, Final(columns, evidence, olds, m));
    var ok := CheckOpen(plan);
    if !ok {
      return Refused;
    }
    FlushesAreSafe(columns, evidence, olds, m);
    Release(rows, byRow);
    var middle := ColumnsOf(rows);
    var retained := Restore(rows, olds, m);
    MatchedMeans(columns, evidence, olds, m);
    hide OneEpisode;
    return Done(m, middle, retained);
  }
}

/** Rebuilding incidents without losing identities, and without dangling references to insights: the
    incident phase of `_restore_lifecycle`. */
module LifecycleIncidents {
  import opened Keys
  import opened UniqueMatching
  import L = LifecycleRebuild

  /** A member event of an incident; `eid` is 0 for a member without an event position. */
  datatype Member = Member(insight: nat, eid: nat)

  datatype Incident = Incident(
    id: nat,
    members: seq<Member>,
    insights: set<nat>,
    state: L.State,
    updated: nat,
    resolved: Option<nat>,
    timeline: nat,
    impact: nat)

  /** An incident as snapshotted before the rebuild; `journal` is the state of its latest lifecycle record. */
  datatype Old = Old(incident: Incident, journal: Option<L.State>) {

    /** An operator decided this incident's state: unlike an insight, it is only ever resolved by hand. */
    predicate Manual() {
      incident.state in {L.Acknowledged, L.Suppressed, L.Expired, L.Resolved} || journal == Some(incident.state)
    }
  }

  class Row {
    var incident: Incident

    constructor (incident: Incident)
      ensures this.incident == incident
    {
      this.incident := incident;
    }
  }

  // ---------------------------------------------------------------- references to insights

  /** The id that the insight replayed under `id` ends with. */
  ghost function NewId(insights: seq<L.Columns>, olds: seq<L.Old>, m: Matching, id: nat): nat
    requires |m| == |olds|
  {
    if j: nat :| j < |insights| && insights[j].id == id then L.Restored(insights[j], L.OldOf(olds, m, j)).id else id
  }

  ghost predicate DistinctIds(insights: seq<L.Columns>) {
    forall i, j :: 0 <= i < j < |insights| ==> insights[i].id != insights[j].id
  }

  function Lookup(mapping: map<nat, nat>, id: nat): nat {
    if id in mapping then mapping[id] else id
  }

  /** The `mappings` dictionary. */
  method Mappings(insights: seq<L.Columns>, ghost olds: seq<L.Old>, ghost m: Matching, byRow: seq<Option<L.Old>>)
      returns (mapping: map<nat, nat>)
    requires |m| == |olds| && |byRow| == |insights| && DistinctIds(insights)
    requires forall j :: 0 <= j < |byRow| ==> byRow[j] == L.OldOf(olds, m, j)
    ensures forall id :: Lookup(mapping, id) == NewId(insights, olds, m, id)
  {
    mapping := map[];
    var j := 0;
    while j < |insights|
      invariant 0 <= j <= |insights|
      invariant forall id :: id in mapping ==> exists k :: 0 <= k < j && insights[k].id == id && byRow[k].Some? && mapping[id] == byRow[k].value.columns.id
      invariant forall k :: 0 <= k < j && byRow[k].Some? ==> insights[k].id in mapping
    {
      if byRow[j].Some? {
        mapping := mapping[insights[j].id := byRow[j].value.columns.id];
      }
      j := j + 1;
    }
    forall id ensures Lookup(mapping, id) == NewId(insights, olds, m, id) {
      if k: nat :| k < |insights| && insights[k].id == id {
        NewIdAt(insights, olds, m, k);
      }
    }
  }

  lemma NewIdAt(insights: seq<L.Columns>, olds: seq<L.Old>, m: Matching, k: nat)
    requires |m| == |olds| && DistinctIds(insights) && k < |insights|
    ensures NewId(insights, olds, m, insights[k].id) == L.Restored(insights[k], L.OldOf(olds, m, k)).id
  {
  }

  function RemapMembers(members: seq<Member>, mapping: map<nat, nat>): (r: seq<Member>)
    ensures |r| == |members|
  {
    seq(|members|, i requires 0 <= i < |members| => members[i].(insight := Lookup(mapping, members[i].insight)))
  }

  function RemapIds(ids: set<nat>, mapping: map<nat, nat>): set<nat> {
    set id | id in ids :: Lookup(mapping, id)
  }

  function Remap(x: Incident, mapping: map<nat, nat>): Incident {
    x.(members := RemapMembers(x.members, mapping), insights := RemapIds(x.insights, mapping))
  }

  /** Every insight the incident refers to, as a whole or for one member, is one of `ids`. */
  ghost predicate RefersTo(x: Incident, ids: set<nat>) {
    x.insights <= ids && forall i :: 0 <= i < |x.members| ==> x.members[i].insight in ids
  }

  ghost function IdsOf(images: L.Images): set<nat> { set s | s in images :: images[s].id }

  ghost function ReplayedIds(insights: seq<L.Columns>): set<nat> { set j | 0 <= j < |insights| :: insights[j].id }

  ghost function OldIds(olds: seq<L.Old>): set<nat> { set i | 0 <= i < |olds| :: olds[i].columns.id }

  /** Renaming insights never leaves a reference behind. */
  lemma RemapKeepsReferences(insights: seq<L.Columns>, evidence: seq<L.Evidence>, olds: seq<L.Old>, m: Matching,
                             mapping: map<nat, nat>, x: Incident)
    requires |insights| == |evidence| && |m| == |olds| && DistinctIds(insights)
    requires forall id :: Lookup(mapping, id) == NewId(insights, olds, m, id)
    requires RefersTo(x, ReplayedIds(insights))
    ensures RefersTo(Remap(x, mapping), IdsOf(L.Final(insights, evidence, olds, m)))
  {
    var images := L.Final(insights, evidence, olds, m);
    forall id | id in ReplayedIds(insights) ensures Lookup(mapping, id) in IdsOf(images) {
      var j: nat :| j < |insights| && insights[j].id == id;
      NewIdAt(insights, olds, m, j);
      L.FinalImages(insights, evidence, olds, m);
      hide L.Final, L.OldOf, L.Restored;
      assert L.FreshRow(j) in images;
    }
  }

  /** Retained incidents refer to old insights, which all still exist. */
  lemma RetainedKeepsReferences(insights: seq<L.Columns>, evidence: seq<L.Evidence>, olds: seq<L.Old>, m: Matching, x: Incident)
    requires |insights| == |evidence| && |m| == |olds| && Injective(m) && L.IdsApart(insights, olds)
    requires forall i :: 0 <= i < |m| && m[i].Some? ==> m[i].value < |evidence|
    requires RefersTo(x, OldIds(olds))
    ensures RefersTo(x, IdsOf(L.Final(insights, evidence, olds, m)))
  {
    var images := L.Final(insights, evidence, olds, m);
    forall id | id in OldIds(olds) ensures id in IdsOf(images) {
      var i: nat :| i < |olds| && olds[i].columns.id == id;
      L.IdentitiesPreserved(insights, evidence, olds, m, i);
      hide L.Final;
      var home := if m[i].Some? then L.FreshRow(m[i].value) else L.Retained(i);
      assert images[home].id == id;
    }
  }

  // ---------------------------------------------------------------- matching and restoring

  /** `_member_positions`. */
  function Positions(x: Incident): set<(nat, nat)> {
    set k | k in x.members && k.eid != 0 :: (k.insight, k.eid)
  }

  /** `same_incident`: a shared member position or, without positions, the same complete membership. */
  predicate SameIncident(was: Incident, replayed: Incident) {
    if Positions(was) != {} && Positions(replayed) != {} then Positions(was) * Positions(replayed) != {}
    else was.insights != {} && was.insights == replayed.insights
  }

  /** What a matched row keeps from before. */
  function Restored(x: Incident, was: Old): Incident {
    var kept := x.(id := was.incident.id);
    if !was.Manual() then kept
    else kept.(state := was.incident.state, updated := was.incident.updated, resolved := was.incident.resolved,
               timeline := was.incident.timeline, impact := was.incident.impact)
  }

  /** Case by case: the id always comes back; what an operator decided, in whichever way it was recorded, comes
      back with its timeline and impact; otherwise the replay decides.  References are never touched. */
  lemma RestoredMeans(x: Incident, was: Old)
    ensures var out := Restored(x, was); var a := was.incident;
      && out.id == a.id && out.members == x.members && out.insights == x.insights
      && (a.state in {L.Acknowledged, L.Suppressed, L.Expired, L.Resolved} || was.journal == Some(a.state) ==>
            out.state == a.state && out.updated == a.updated && out.resolved == a.resolved && out.timeline == a.timeline && out.impact == a.impact)
      && (a.state == L.Open && was.journal != Some(L.Open) ==> out == x.(id := a.id))
  {
  }

  ghost predicate HasPosition(x: Incident) {
    exists k :: k in x.members && k.eid != 0
  }

  /** Two incidents are one: they share a member event or, when one of them has no positions, their complete
      membership. */
  ghost predicate OneIncident(a: Incident, b: Incident) {
    if HasPosition(a) && HasPosition(b) then
      exists x, y :: x in a.members && y in b.members && x.eid != 0 && x.eid == y.eid && x.insight == y.insight
    else a.insights != {} && a.insights == b.insights
  }

  lemma SameIncidentMeans(a: Incident, b: Incident)
    ensures SameIncident(a, b) <==> OneIncident(a, b)
  {
    PositionsMean(a);
    PositionsMean(b);
    if x, y :| x in a.members && y in b.members && x.eid != 0 && x.eid == y.eid && x.insight == y.insight {
      assert (x.insight, x.eid) in Positions(a) * Positions(b);
    }
    if k :| k in Positions(a) * Positions(b) {
      var x :| x in a.members && x.eid != 0 && (x.insight, x.eid) == k;
      var y :| y in b.members && y.eid != 0 && (y.insight, y.eid) == k;
    }
  }

  lemma PositionsMean(x: Incident)
    ensures Positions(x) != {} <==> HasPosition(x)
  {
    if k :| k in x.members && k.eid != 0 {
      assert (k.insight, k.eid) in Positions(x);
    }
  }

  lemma MatchedMeans(olds: seq<Old>, replayed: seq<Incident>, m: Matching)
    requires Matches(m, IncidentsOf(olds), replayed, SameIncident, |olds|)
    ensures forall i: nat, j: nat :: i < |olds| && j < |replayed| ==> (m[i] == Some(j) <==> OneIncident(olds[i].incident, replayed[j]))
  {
    forall i: nat, j: nat | i < |olds| && j < |replayed| ensures m[i] == Some(j) <==> OneIncident(olds[i].incident, replayed[j]) {
      SameIncidentMeans(olds[i].incident, replayed[j]);
      assert Candidate(IncidentsOf(olds), replayed, SameIncident, i, j) <==> SameIncident(olds[i].incident, replayed[j]);
      hide OneIncident, SameIncident, Candidate;
    }
  }

  function IncidentsOf(olds: seq<Old>): seq<Incident> {
    seq(|olds|, i requires 0 <= i < |olds| => olds[i].incident)
  }

  function RowsOf(rows: seq<Row>): seq<Incident>
    reads rows
  {
    seq(|rows|, j requires 0 <= j < |rows| reads rows => rows[j].incident)
  }

  ghost predicate Distinct(rows: seq<Row>) {
    forall i, j :: 0 <= i < j < |rows| ==> rows[i] != rows[j]
  }

  /** The loop that renames references in every replayed incident. */
  method RemapAll(rows: seq<Row>, mapping: map<nat, nat>)
    requires Distinct(rows)
    modifies rows
    ensures forall j :: 0 <= j < |rows| ==> rows[j].incident == Remap(old(rows[j].incident), mapping)
  {
    hide Remap;
    var j := 0;
    while j < |rows|
      invariant 0 <= j <= |rows|
      invariant forall k :: 0 <= k < j ==> rows[k].incident == Remap(old(rows[k].incident), mapping)
      invariant forall k :: j <= k < |rows| ==> rows[k].incident == old(rows[k].incident)
    {
      assert forall k :: 0 <= k < |rows| && k != j ==> rows[k] != rows[j];
      rows[j].incident := Remap(rows[j].incident, mapping);
      j := j + 1;
    }
  }

  /** Matched rows are restored from their old incidents, the others are as they were. */
  ghost predicate AreRestored(before: seq<Incident>, after: seq<Incident>, olds: seq<Old>, m: Matching) {
    && |after| == |before| && |m| == |olds|
    && (forall i :: 0 <= i < |olds| && m[i].Some? ==>
          m[i].value < |after| && after[m[i].value] == Restored(before[m[i].value], olds[i]))
    && (forall j: nat :: j < |after| && Some(j) !in m ==> after[j] == before[j])
  }

  /** New ids are newly drawn. */
  ghost predicate IdsApart(before: seq<Incident>, olds: seq<Old>) {
    && (forall i, j :: 0 <= i < j < |olds| ==> olds[i].incident.id != olds[j].incident.id)
    && (forall i, j :: 0 <= i < |before| && 0 <= j < |olds| ==> before[i].id != olds[j].incident.id)
  }

  /** Every old incident id exists exactly once afterwards: on its matched row, or on the retained one. */
  lemma IdentityOnce(before: seq<Incident>, after: seq<Incident>, olds: seq<Old>, m: Matching, i: nat)
    requires AreRestored(before, after, olds, m) && Injective(m) && IdsApart(before, olds) && i < |olds|
    ensures forall j :: 0 <= j < |after| ==> (after[j].id == olds[i].incident.id <==> m[i] == Some(j))
    ensures forall h :: 0 <= h < |olds| && h != i ==> olds[h].incident.id != olds[i].incident.id
  {
    forall j: nat | j < |after| ensures after[j].id == olds[i].incident.id <==> m[i] == Some(j) {
      if Some(j) in m {
        var h :| 0 <= h < |m| && m[h] == Some(j);
      } else {
        assert m[i] in m;
      }
    }
  }

  /** The incident phase: refuse an ambiguous matching, or give every old incident its id back. */
  method RestoreIncidents(rows: seq<Row>, olds: seq<Old>) returns (m: Option<Matching>, retained: map<nat, Row>)
    requires Distinct(rows)
    modifies rows
    ensures m.Some? <==> Unambiguous(IncidentsOf(olds), old(RowsOf(rows)), SameIncident, |olds|)
    ensures m.None? ==> unchanged(rows)
    ensures m.Some? ==> Matches(m.value, IncidentsOf(olds), old(RowsOf(rows)), SameIncident, |olds|) && Injective(m.value)
    ensures m.Some? ==> forall i: nat :: i in retained <==> i < |olds| && m.value[i].None?
    ensures m.Some? ==> forall i :: i in retained ==> retained[i].incident == olds[i].incident
    ensures m.Some? ==> AreRestored(old(RowsOf(rows)), RowsOf(rows), olds, m.value)
    ensures m.Some? ==> forall i: nat, j: nat :: i < |olds| && j < |rows| ==>
      (m.value[i] == Some(j) <==> OneIncident(olds[i].incident, old(rows[j].incident)))
  {
    hide Matches, Unambiguous, OneIncident;
    retained := map[];
    m := UniqueMatches(IncidentsOf(olds), RowsOf(rows), SameIncident);
    if m.None? {
      return;
    }
    MatchedRows(IncidentsOf(olds), RowsOf(rows), SameIncident, m.value);
    MatchedMeans(olds, RowsOf(rows), m.value);
    var i := 0;
    while i < |olds|
      invariant 0 <= i <= |olds|
      invariant forall h: nat :: h in retained <==> h < i && m.value[h].None?
      invariant forall h :: h in retained ==> fresh(retained[h]) && retained[h].incident == olds[h].incident
      invariant forall h :: 0 <= h < i && m.value[h].Some? ==>
        rows[m.value[h].value].incident == Restored(old(rows[m.value[h].value].incident), olds[h])
      invariant forall j: nat :: j < |rows| && (forall h :: 0 <= h < i ==> m.value[h] != Some(j)) ==> rows[j].incident == old(rows[j].incident)
    {
      if m.value[i].Some? {
        var row := rows[m.value[i].value];
        row.incident := Restored(row.incident, olds[i]);
      } else {
        var row := new Row(olds[i].incident);
        retained := retained[i := row];
      }
      i := i + 1;
    }
    forall j: nat | j < |rows| && Some(j) !in m.value ensures forall h :: 0 <= h < |olds| ==> m.value[h] != Some(j) {
    }
  }

  /** Restoring an incident's id and operator decisions touches no reference. */
  lemma RestoredKeepsReferences(x: Incident, was: Old, ids: set<nat>)
    requires RefersTo(x, ids)
    ensures RefersTo(Restored(x, was), ids) && Restored(x, was).id == was.incident.id
    ensures was.Manual() ==> Restored(x, was).state == was.incident.state
  {
  }

  // ---------------------------------------------------------------- both phases

  /** The insight ids of the table: those of the derived rows, and of the retained ones. */
  ghost function InsightIds(rows: seq<L.Insight>, retained: map<nat, L.Insight>): set<nat>
    reads rows, retained.Values
  {
    (set j | 0 <= j < |rows| :: rows[j].columns.id) + (set i | i in retained :: retained[i].columns.id)
  }

  ghost predicate AllRefer(incidents: seq<Incident>, ids: set<nat>) {
    forall j :: 0 <= j < |incidents| ==> RefersTo(incidents[j], ids)
  }

  /** Old incident `i` has its id on exactly one row, derived or retained, with the operator's state, and
      everything as it was if it is retained. */
  ghost predicate HomeOnce(after: seq<Incident>, retained: map<nat, Incident>, olds: seq<Old>, m: Matching, i: nat)
    requires |m| == |olds| && i < |olds|
  {
    && (forall j :: 0 <= j < |after| ==> (after[j].id == olds[i].incident.id <==> m[i] == Some(j)))
    && (forall h :: h in retained ==> (retained[h].id == olds[i].incident.id <==> h == i))
    && (m[i].Some? ==> m[i].value < |after| && i !in retained
                       && (olds[i].Manual() ==> after[m[i].value].state == olds[i].incident.state))
    && (m[i].None? ==> i in retained && retained[i] == olds[i].incident)
  }

  ghost function RetainedIncidents(retained: map<nat, Row>): map<nat, Incident>
    reads retained.Values
  {
    map i | i in retained :: retained[i].incident
  }

  datatype Outcome =
    | InsightsRefused
    | IncidentsRefused
    | Completed(insightMatches: Matching, insights: map<nat, L.Insight>, m: Matching, retained: map<nat, Row>)

  /** `_restore_lifecycle`: the insight phases, the renaming of references, the incident phase.  A refusal
      aborts the caller's transaction.  Otherwise every incident, matched, new or retained, refers only to
      insights that exist, and every old incident exists exactly once, with its operator's decision. */
  method RestoreLifecycle(insights: seq<L.Insight>, oldInsights: seq<L.Old>, incidents: seq<Row>, oldIncidents: seq<Old>)
      returns (r: Outcome)
    requires L.Distinct(insights) && L.IdsApart(L.ColumnsOf(insights), oldInsights)
    requires L.Lawful(L.Derived(L.ColumnsOf(insights), L.EvidenceOf(insights)))
    requires Distinct(incidents) && IdsApart(RowsOf(incidents), oldIncidents)
    requires AllRefer(RowsOf(incidents), ReplayedIds(L.ColumnsOf(insights)))
    requires AllRefer(IncidentsOf(oldIncidents), OldIds(oldInsights))
    modifies insights`columns, incidents
    ensures r.InsightsRefused? <==> !L.Restorable(old(L.ColumnsOf(insights)), L.EvidenceOf(insights), oldInsights)
    ensures r.InsightsRefused? ==> unchanged(insights) && unchanged(incidents)
    ensures r.Completed? ==>
      && Matches(r.insightMatches, L.OldEvidence(oldInsights), L.EvidenceOf(insights), L.SameInsight, |oldInsights|)
      && Injective(r.insightMatches) && |r.insightMatches| == |oldInsights|
      && (forall j :: 0 <= j < |insights| ==>
            insights[j].columns == L.Restored(old(insights[j].columns), L.OldOf(oldInsights, r.insightMatches, j)))
      && (forall i: nat :: i in r.insights <==> i < |oldInsights| && r.insightMatches[i].None?)
      && (forall i :: i in r.insights ==> r.insights[i].columns == oldInsights[i].columns)
    ensures r.Completed? ==>
      && AllRefer(RowsOf(incidents), InsightIds(insights, r.insights))
      && (forall i :: i in r.retained ==> RefersTo(r.retained[i].incident, InsightIds(insights, r.insights)))
    ensures r.Completed? ==> |r.m| == |oldIncidents| && Injective(r.m)
    ensures r.Completed? ==> forall i: nat :: i < |oldIncidents| ==> HomeOnce(RowsOf(incidents), RetainedIncidents(r.retained), oldIncidents, r.m, i)
  {
    var columns := L.ColumnsOf(insights);
    var evidence := L.EvidenceOf(insights);
    ghost var before := RowsOf(incidents);
    hide L.Lawful, L.Derived, L.Final, L.Middle, L.FlushSafe, L.Restorable, Matches, Injective, AllRefer, HomeOnce, IdsApart, L.IdsApart;
    var phase1 := L.RestoreLifecycle(insights, oldInsights);
    if phase1.Refused? {
      return InsightsRefused;
    }
    DistinctReplayed(columns, oldInsights);
    MatchedRows(L.OldEvidence(oldInsights), evidence, L.SameInsight, phase1.m);
    var byRow := L.OldByReplayed(oldInsights, phase1.m, |columns|);
    var mapping := Mappings(columns, oldInsights, phase1.m, byRow);
    RemapAll(incidents, mapping);
    ghost var renamed := RowsOf(incidents);
    var matching, retained := RestoreIncidents(incidents, oldIncidents);
    if matching.None? {
      return IncidentsRefused;
    }
    ghost var m, ids := matching.value, IdsOf(L.Final(columns, evidence, oldInsights, phase1.m));
    IdsAre(insights, phase1.retained, columns, oldInsights, phase1.m);
    RenamedRefer(columns, evidence, oldInsights, phase1.m, mapping, before, renamed);
    RestoredRefer(renamed, RowsOf(incidents), oldIncidents, m, ids);
    RetainedRefer(columns, evidence, oldInsights, phase1.m, oldIncidents);
    Homes(before, renamed, RowsOf(incidents), RetainedIncidents(retained), oldIncidents, m);
    return Completed(phase1.m, phase1.retained, matching.value, retained);
  }

  /** The rows that exist are the slots of the final table. */
  lemma IdsAre(insights: seq<L.Insight>, retained: map<nat, L.Insight>, columns: seq<L.Columns>, olds: seq<L.Old>, m: Matching)
    requires |columns| == |insights| && |m| == |olds|
    requires forall j :: 0 <= j < |insights| ==> insights[j].columns == L.Restored(columns[j], L.OldOf(olds, m, j))
    requires forall i: nat :: i in retained <==> i < |olds| && m[i].None?
    requires forall i :: i in retained ==> retained[i].columns == olds[i].columns
    ensures InsightIds(insights, retained) == IdsOf(L.Final(columns, L.EvidenceOf(insights), olds, m))
  {
    var images := L.Final(columns, L.EvidenceOf(insights), olds, m);
    L.FinalImages(columns, L.EvidenceOf(insights), olds, m);
    hide L.Final, L.OldOf, L.Restored;
    forall id | id in InsightIds(insights, retained) ensures id in IdsOf(images) {
      if j: nat :| j < |insights| && insights[j].columns.id == id {
        assert L.FreshRow(j) in images && images[L.FreshRow(j)].id == id;
      } else {
        var i: nat :| i in retained && retained[i].columns.id == id;
        assert L.Retained(i) in images && images[L.Retained(i)].id == id;
      }
    }
    forall id | id in IdsOf(images) ensures id in InsightIds(insights, retained) {
      var s :| s in images && images[s].id == id;
      match s
      case FreshRow(j) => assert insights[j].columns.id == id;
      case Retained(i) => assert retained[i].columns.id == id;
    }
  }

  lemma RenamedRefer(insights: seq<L.Columns>, evidence: seq<L.Evidence>, olds: seq<L.Old>, m: Matching, mapping: map<nat, nat>,
                     before: seq<Incident>, renamed: seq<Incident>)
    requires |insights| == |evidence| && |m| == |olds| && DistinctIds(insights) && |renamed| == |before|
    requires forall id :: Lookup(mapping, id) == NewId(insights, olds, m, id)
    requires AllRefer(before, ReplayedIds(insights))
    requires forall j :: 0 <= j < |before| ==> renamed[j] == Remap(before[j], mapping)
    ensures AllRefer(renamed, IdsOf(L.Final(insights, evidence, olds, m)))
  {
    hide Remap, RefersTo, Lookup, NewId, DistinctIds;
    forall j | 0 <= j < |renamed| ensures RefersTo(renamed[j], IdsOf(L.Final(insights, evidence, olds, m))) {
      RemapKeepsReferences(insights, evidence, olds, m, mapping, before[j]);
    }
  }

  lemma RestoredRefer(before: seq<Incident>, after: seq<Incident>, olds: seq<Old>, m: Matching, ids: set<nat>)
    requires AreRestored(before, after, olds, m) && AllRefer(before, ids)
    ensures AllRefer(after, ids)
  {
    hide RefersTo, Restored;
    forall j: nat | j < |after| ensures RefersTo(after[j], ids) {
      if Some(j) in m {
        var i :| 0 <= i < |m| && m[i] == Some(j);
        RestoredKeepsReferences(before[j], olds[i], ids);
      }
    }
  }

  lemma RetainedRefer(insights: seq<L.Columns>, evidence: seq<L.Evidence>, oldInsights: seq<L.Old>, m: Matching, olds: seq<Old>)
    requires |insights| == |evidence| && |m| == |oldInsights| && Injective(m) && L.IdsApart(insights, oldInsights)
    requires forall i :: 0 <= i < |m| && m[i].Some? ==> m[i].value < |evidence|
    requires AllRefer(IncidentsOf(olds), OldIds(oldInsights))
    ensures forall i :: 0 <= i < |olds| ==> RefersTo(olds[i].incident, IdsOf(L.Final(insights, evidence, oldInsights, m)))
  {
    hide RefersTo, L.Final, Injective, L.IdsApart;
    forall i | 0 <= i < |olds| ensures RefersTo(olds[i].incident, IdsOf(L.Final(insights, evidence, oldInsights, m))) {
      assert RefersTo(IncidentsOf(olds)[i], OldIds(oldInsights));
      RetainedKeepsReferences(insights, evidence, oldInsights, m, olds[i].incident);
    }
  }

  lemma Homes(before: seq<Incident>, renamed: seq<Incident>, after: seq<Incident>, retained: map<nat, Incident>, olds: seq<Old>, m: Matching)
    requires IdsApart(before, olds) && |renamed| == |before| && forall j :: 0 <= j < |before| ==> renamed[j].id == before[j].id
    requires AreRestored(renamed, after, olds, m) && Injective(m)
    requires forall i: nat :: i in retained <==> i < |olds| && m[i].None?
    requires forall i :: i in retained ==> retained[i] == olds[i].incident
    ensures forall i: nat :: i < |olds| ==> HomeOnce(after, retained, olds, m, i)
  {
    assert IdsApart(renamed, olds);
    forall i: nat | i < |olds| ensures HomeOnce(after, retained, olds, m, i) {
      IdentityOnce(renamed, after, olds, m, i);
    }
  }

  lemma DistinctReplayed(insights: seq<L.Columns>, olds: seq<L.Old>)
    requires L.IdsApart(insights, olds)
    ensures DistinctIds(insights)
  {
  }
}

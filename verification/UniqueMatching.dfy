/** `_unique_matches`: an injective matching of old rows with replayed rows, or a refusal. */
module UniqueMatching {
  import opened Keys

  /** For each old row, the index of its replayed row, if any. */
  type Matching = seq<Option<nat>>

  ghost predicate Candidate<O(!new), N(!new)>(olds: seq<O>, replayed: seq<N>, same: (O, N) -> bool, i: nat, j: nat) {
    i < |olds| && j < |replayed| && same(olds[i], replayed[j])
  }

  /** No old row has two candidates and no candidate is shared. */
  ghost predicate Unambiguous<O(!new), N(!new)>(olds: seq<O>, replayed: seq<N>, same: (O, N) -> bool, n: nat) {
    && (forall i: nat, j: nat, k: nat :: i < n && Candidate(olds, replayed, same, i, j) && Candidate(olds, replayed, same, i, k) ==> j == k)
    && (forall h: nat, i: nat, j: nat :: h < n && i < n && Candidate(olds, replayed, same, h, j) && Candidate(olds, replayed, same, i, j) ==> h == i)
  }

  /** The first `n` old rows are matched with exactly their candidates. */
  ghost predicate Matches<O(!new), N(!new)>(m: Matching, olds: seq<O>, replayed: seq<N>, same: (O, N) -> bool, n: nat) {
    && |m| == n <= |olds|
    && forall i: nat, j: nat :: i < n ==> (m[i] == Some(j) <==> Candidate(olds, replayed, same, i, j))
  }

  ghost predicate Injective(m: Matching) {
    forall h, i :: 0 <= h < |m| && 0 <= i < |m| && m[h].Some? && m[h] == m[i] ==> h == i
  }

  method CandidatesOf<O, N>(was: O, replayed: seq<N>, same: (O, N) -> bool) returns (candidates: seq<nat>)
    ensures forall j: nat :: j in candidates <==> j < |replayed| && same(was, replayed[j])
    ensures forall i, j :: 0 <= i < j < |candidates| ==> candidates[i] < candidates[j]
  {
    candidates := [];
    var j := 0;
    while j < |replayed|
      invariant 0 <= j <= |replayed|
      invariant forall k: nat :: k in candidates <==> k < j && same(was, replayed[k])
      invariant forall i, k :: 0 <= i < k < |candidates| ==> candidates[i] < candidates[k]
    {
      if same(was, replayed[j]) {
        assert forall i :: 0 <= i < |candidates| ==> candidates[i] in candidates;
        candidates := candidates + [j];
      }
      j := j + 1;
    }
  }

  /** `_unique_matches`: build the complete matching, or refuse an ambiguous one. */
  method UniqueMatches<O(!new), N(!new)>(olds: seq<O>, replayed: seq<N>, same: (O, N) -> bool) returns (result: Option<Matching>)
    ensures result.Some? <==> Unambiguous(olds, replayed, same, |olds|)
    ensures result.Some? ==> Matches(result.value, olds, replayed, same, |olds|) && Injective(result.value)
  {
    var m: Matching := [];
    var claimed: set<nat> := {};
    var i := 0;
    while i < |olds|
      invariant 0 <= i <= |olds|
      invariant Matches(m, olds, replayed, same, i) && Unambiguous(olds, replayed, same, i)
      invariant forall j: nat :: j in claimed <==> Some(j) in m
    {
      var candidates := CandidatesOf(olds[i], replayed, same);
      if |candidates| > 1 || (candidates != [] && candidates[0] in claimed) {
        Ambiguous(olds, replayed, same, i, candidates, m);
        return None;
      }
      MatchStep(olds, replayed, same, i, candidates, m);
      if candidates != [] {
        m, claimed := m + [Some(candidates[0])], claimed + {candidates[0]};
      } else {
        m := m + [None];
      }
      i := i + 1;
    }
    MatchingInjective(olds, replayed, same, m);
    return Some(m);
  }

  lemma Ambiguous<O(!new), N(!new)>(olds: seq<O>, replayed: seq<N>, same: (O, N) -> bool, i: nat, candidates: seq<nat>, m: Matching)
    requires i < |olds| && Matches(m, olds, replayed, same, i)
    requires forall j: nat :: j in candidates <==> Candidate(olds, replayed, same, i, j)
    requires forall a, b :: 0 <= a < b < |candidates| ==> candidates[a] < candidates[b]
    requires |candidates| > 1 || (candidates != [] && Some(candidates[0]) in m)
    ensures !Unambiguous(olds, replayed, same, |olds|)
  {
    if |candidates| > 1 {
      assert candidates[0] in candidates && candidates[1] in candidates;
    } else {
      var h :| 0 <= h < |m| && m[h] == Some(candidates[0]);
      assert Candidate(olds, replayed, same, h, candidates[0]);
      assert candidates[0] in candidates;
    }
  }

  lemma MatchStep<O(!new), N(!new)>(olds: seq<O>, replayed: seq<N>, same: (O, N) -> bool, i: nat, candidates: seq<nat>, m: Matching)
    requires i < |olds| && Matches(m, olds, replayed, same, i) && Unambiguous(olds, replayed, same, i)
    requires forall j: nat :: j in candidates <==> Candidate(olds, replayed, same, i, j)
    requires |candidates| <= 1 && (candidates != [] ==> Some(candidates[0]) !in m)
    ensures Matches(m + [if candidates == [] then None else Some(candidates[0])], olds, replayed, same, i + 1)
    ensures Unambiguous(olds, replayed, same, i + 1)
  {
    assert candidates != [] ==> candidates[0] in candidates;
    assert forall j :: j in candidates ==> j == candidates[0];
    forall h: nat, j: nat | h < i && Candidate(olds, replayed, same, h, j) ensures !Candidate(olds, replayed, same, i, j) {
      assert m[h] == Some(j) && m[h] in m;
    }
  }

  lemma MatchingInjective<O(!new), N(!new)>(olds: seq<O>, replayed: seq<N>, same: (O, N) -> bool, m: Matching)
    requires Matches(m, olds, replayed, same, |olds|) && Unambiguous(olds, replayed, same, |olds|)
    ensures Injective(m)
  {
    forall h, i | 0 <= h < |m| && 0 <= i < |m| && m[h].Some? && m[h] == m[i] ensures h == i {
      assert Candidate(olds, replayed, same, h, m[h].value) && Candidate(olds, replayed, same, i, m[i].value);
    }
  }

  lemma MatchedRows<O(!new), N(!new)>(olds: seq<O>, replayed: seq<N>, same: (O, N) -> bool, m: Matching)
    requires Matches(m, olds, replayed, same, |olds|)
    ensures |m| == |olds| && forall i :: 0 <= i < |m| && m[i].Some? ==> m[i].value < |replayed|
  {
    forall i: nat | i < |m| && m[i].Some? ensures m[i].value < |replayed| {
      assert Candidate(olds, replayed, same, i, m[i].value);
    }
  }

  lemma OnlyMatching<O(!new), N(!new)>(olds: seq<O>, replayed: seq<N>, same: (O, N) -> bool, m: Matching)
    requires Matches(m, olds, replayed, same, |olds|)
    ensures forall other: Matching :: Matches(other, olds, replayed, same, |olds|) ==> other == m
  {
    forall other: Matching | Matches(other, olds, replayed, same, |olds|) ensures other == m {
      forall i: nat | i < |m| ensures other[i] == m[i] {
        if m[i].Some? { assert Candidate(olds, replayed, same, i, m[i].value); }
        if other[i].Some? { assert Candidate(olds, replayed, same, i, other[i].value); }
      }
    }
  }
}

/** The timeline of one insight dedupe key, on values.

    Failing events ("producers") are partitioned at success events ("resolvers").  A chain of insight
    rows is determined by three sets: the producer keys recorded on its rows, the resolver keys of its
    resolved rows, and the matching successes already stored as canonical events.
 */
module EpisodeSpec {
  import opened Keys

  /** Keys of `s` observed at or after instant `t`; a resolver covers producers by instant only. */
  ghost function Candidates(s: set<Key>, t: nat): set<Key> {
    set k | k in s && k.at >= t
  }

  /** The earliest key of `s` at or after instant `t`. */
  ghost function Earliest(s: set<Key>, t: nat): (r: Option<Key>)
    ensures r.None? <==> forall k :: k in s ==> k.at < t
    ensures r.Some? ==> r.value in s && r.value.at >= t
    ensures r.Some? ==> forall k :: k in s && k.at >= t ==> AtMost(r.value, k)
  {
    if Candidates(s, t) == {} then
      assert forall k :: k in s && k.at >= t ==> k in Candidates(s, t);
      None
    else
      var k := Least(Candidates(s, t));
      assert forall x :: x in s && x.at >= t ==> x in Candidates(s, t);
      Some(k)
  }

  /** `Earliest` is the only answer with its two properties. */
  lemma EarliestIs(s: set<Key>, t: nat, k: Key)
    requires k in s && k.at >= t
    requires forall x :: x in s && x.at >= t ==> AtMost(k, x)
    ensures Earliest(s, t) == Some(k)
  {
  }

  /** The resolver that closes the row holding a producer at instant `t`, once `_normalize_chain` has
      used the existing bounds `B` and then looked up stored successes `S` for what is left open. */
  ghost function Owner(t: nat, B: set<Key>, S: set<Key>): Option<Key> {
    if Earliest(B, t).Some? then Earliest(B, t) else Earliest(S, t)
  }

  /** Bounds that hold at least one producer: the others are not boundaries in a replay. */
  ghost function Live(P: set<Key>, B: set<Key>, S: set<Key>): set<Key> {
    set p | p in P && Owner(p.at, B, S).Some? :: Owner(p.at, B, S).value
  }

  /** The producers of the row closed by `b` (`None`: the open row). */
  ghost function Members(P: set<Key>, B: set<Key>, S: set<Key>, b: Option<Key>): set<Key> {
    set p | p in P && Owner(p.at, B, S) == b
  }

  /** Where the row closed by `b` starts: the greatest live bound below it. */
  ghost function Previous(L: set<Key>, b: Option<Key>): (r: Option<Key>)
    ensures r.Some? ==> r.value in L && (b.Some? ==> Less(r.value, b.value))
    ensures forall k :: k in L && (b.Some? ==> Less(k, b.value)) ==> r.Some? && AtMost(k, r.value)
  {
    var below := set k | k in L && (b.Some? ==> Less(k, b.value));
    if below == {} then
      assert forall k :: k in L && (b.Some? ==> Less(k, b.value)) ==> k in below;
      None
    else
      assert forall k :: k in L && (b.Some? ==> Less(k, b.value)) ==> k in below;
      Some(Greatest(below))
  }

  /** Two bound sets that give every producer the same owner describe the same rows. */
  ghost predicate SameOwners(P: set<Key>, B: set<Key>, C: set<Key>, S: set<Key>) {
    forall p :: p in P ==> Owner(p.at, B, S) == Owner(p.at, C, S)
  }

  lemma SameOwnersSameRows(P: set<Key>, B: set<Key>, C: set<Key>, S: set<Key>)
    requires SameOwners(P, B, C, S)
    ensures Live(P, B, S) == Live(P, C, S)
    ensures forall b :: Members(P, B, S, b) == Members(P, C, S, b)
  {
    forall b ensures Members(P, B, S, b) == Members(P, C, S, b) {
      assert forall p :: p in Members(P, B, S, b) <==> p in Members(P, C, S, b);
    }
    assert forall k :: k in Live(P, B, S) <==> k in Live(P, C, S);
  }

  // ---------------------------------------------------------------- chain states

  /** Every producer's row is the one a replay over the stored successes gives it. */
  ghost predicate Agrees(P: set<Key>, B: set<Key>, S: set<Key>) {
    forall p :: p in P ==> Earliest(B, p.at) == Earliest(S, p.at)
  }

  /** Producers on the rows, bounds of the resolved rows, stored matching successes. */
  datatype Chain = Chain(producers: set<Key>, bounds: set<Key>, stored: set<Key>) {

    /** What every normalized chain satisfies: each bound closes some producer, and a producer left
        open has no stored success at or after it. */
    ghost predicate Tiled() {
      && bounds == Live(producers, bounds, stored)
      && forall p :: p in producers && Earliest(bounds, p.at).None? ==> Earliest(stored, p.at).None?
    }

    /** The replay partition: every producer sits on the row closed by the earliest stored success at
        or after it, or on the open row when there is none. */
    ghost predicate Canonical() {
      && bounds == Live(producers, {}, stored)
      && Agrees(producers, bounds, stored)
    }
  }

  /** `_normalize_chain`. */
  ghost function Normal(P: set<Key>, B: set<Key>, S: set<Key>): Chain {
    Chain(P, Live(P, B, S), S)
  }

  lemma OwnerOfLive(P: set<Key>, B: set<Key>, S: set<Key>, p: Key)
    requires p in P
    ensures Earliest(Live(P, B, S), p.at) == Owner(p.at, B, S)
  {
    var L := Live(P, B, S);
    var o := Owner(p.at, B, S);
    if o.Some? {
      assert o.value in L;
      forall x | x in L && x.at >= p.at ensures AtMost(o.value, x) {
        var q :| q in P && Owner(q.at, B, S) == Some(x);
        if Earliest(B, p.at).None? {
          // p lies beyond every bound, so x is a stored success
          assert x !in B;
        }
      }
      EarliestIs(L, p.at, o.value);
    } else {
      forall x | x in L ensures x.at < p.at {
        var q :| q in P && Owner(q.at, B, S) == Some(x);
      }
    }
  }

  /** Normalization keeps every producer where `Owner` says, and normalizing again changes nothing. */
  lemma NormalIsTiled(P: set<Key>, B: set<Key>, S: set<Key>)
    ensures Normal(P, B, S).Tiled()
    ensures SameOwners(P, B, Live(P, B, S), S)
    ensures Normal(P, Live(P, B, S), S) == Normal(P, B, S)
  {
    var L := Live(P, B, S);
    forall p | p in P ensures Owner(p.at, B, S) == Owner(p.at, L, S) {
      OwnerOfLive(P, B, S, p);
      if Earliest(L, p.at).None? { assert Earliest(S, p.at).None?; }
    }
    SameOwnersSameRows(P, B, L, S);
    forall p | p in P && Earliest(L, p.at).None? ensures Earliest(S, p.at).None? {
      OwnerOfLive(P, B, S, p);
    }
  }

  /** Adding the bound that the open row's retroactive resolver supplies does not change any owner:
      this is what makes the recursion of `_normalize_chain` reach `Owner`. */
  lemma RetroBoundSameOwners(P: set<Key>, B: set<Key>, S: set<Key>, first: Key, r: Key)
    requires first in P && Earliest(B, first.at).None?
    requires forall p :: p in P && Earliest(B, p.at).None? ==> first.at <= p.at
    requires Earliest(S, first.at) == Some(r)
    ensures SameOwners(P, B, Live(P, B, {}) + {r}, S)
  {
    var C := Live(P, B, {}) + {r};
    forall p | p in P ensures Owner(p.at, B, S) == Owner(p.at, C, S) {
      if Earliest(B, p.at).Some? {
        var b := Earliest(B, p.at).value;
        assert Owner(p.at, B, {}) == Some(b);
        forall x | x in C && x.at >= p.at ensures AtMost(b, x) {
          LiveIsBound(P, B, x);
        }
        EarliestIs(C, p.at, b);
      } else {
        forall x | x in C && x.at >= p.at ensures x == r { LiveIsBound(P, B, x); }
        if r.at >= p.at {
          EarliestIs(C, p.at, r);
          EarliestIs(S, p.at, r);
        } else {
          assert Earliest(C, p.at).None?;
        }
      }
    }
  }

  lemma LiveIsBound(P: set<Key>, B: set<Key>, x: Key)
    ensures x in Live(P, B, {}) ==> x in B
  {
    if x in Live(P, B, {}) {
      var p :| p in P && Owner(p.at, B, {}) == Some(x);
    }
  }

  // ---------------------------------------------------------------- one event

  /** The row closed by `b` once `P` is the producer set, before any bound moves. */
  ghost function Row(P: set<Key>, B: set<Key>, b: Key): set<Key> {
    set p | p in P && Earliest(B, p.at) == Some(b)
  }

  /** `record_findings` followed by the retroactive resolver lookup of `BatchState.step`. */
  ghost function OnFailure(c: Chain, f: Key): Chain {
    var P := c.producers + {f};
    match Earliest(c.bounds, f.at)
    case None => Normal(P, c.bounds, c.stored)
    case Some(b) =>
      assert f in Row(P, c.bounds, b);
      var r := Earliest(c.stored, Least(Row(P, c.bounds, b)).at);
      if r.Some? && Less(r.value, b) then Normal(P, c.bounds - {b} + {r.value}, c.stored)
      else Chain(P, c.bounds, c.stored)
  }

  /** `resolve_for_event`: the success is stored before the step runs. */
  ghost function OnSuccess(c: Chain, s: Key): Chain {
    var S := c.stored + {s};
    match Earliest(c.bounds, s.at)
    case None => Normal(c.producers, c.bounds, S)
    case Some(b) =>
      var row := Row(c.producers, c.bounds, b);
      if row != {} && Least(row).at <= s.at && Less(s, b) then
        Normal(c.producers, c.bounds - {b} + {s}, S)
      else Chain(c.producers, c.bounds, S)
  }

  /** Every step leaves a tiled chain, whatever the position of the event. */
  lemma OnFailureTiled(c: Chain, f: Key)
    requires c.Tiled()
    ensures OnFailure(c, f).Tiled()
    ensures OnFailure(c, f).producers == c.producers + {f} && OnFailure(c, f).stored == c.stored
  {
    var P := c.producers + {f};
    var B, S := c.bounds, c.stored;
    NormalIsTiled(P, B, S);
    if Earliest(B, f.at).Some? {
      var b := Earliest(B, f.at).value;
      assert f in Row(P, B, b);
      var r := Earliest(S, Least(Row(P, B, b)).at);
      if r.Some? && Less(r.value, b) {
        NormalIsTiled(P, B - {b} + {r.value}, S);
      } else {
        LiveWithCovered(c.producers, B, S, f);
      }
    }
  }

  lemma LiveWithCovered(P: set<Key>, B: set<Key>, S: set<Key>, f: Key)
    requires B == Live(P, B, S) && Earliest(B, f.at).Some?
    ensures Live(P + {f}, B, S) == B
  {
    var L := Live(P + {f}, B, S);
    forall k | k in L ensures k in B {
      var p :| p in P + {f} && Owner(p.at, B, S) == Some(k);
      if p != f { assert k in Live(P, B, S); }
    }
    forall k | k in B ensures k in L {
      var p :| p in P && Owner(p.at, B, S) == Some(k);
      assert p in P + {f};
    }
  }

  lemma OnSuccessTiled(c: Chain, s: Key)
    requires c.Tiled()
    ensures OnSuccess(c, s).Tiled()
    ensures OnSuccess(c, s).producers == c.producers && OnSuccess(c, s).stored == c.stored + {s}
  {
    var P, B, S := c.producers, c.bounds, c.stored + {s};
    NormalIsTiled(P, B, S);
    if Earliest(B, s.at).Some? {
      var b := Earliest(B, s.at).value;
      NormalIsTiled(P, B - {b} + {s}, S);
      CoveredSuccessTiled(c, s, b);
    }
  }

  lemma CoveredSuccessTiled(c: Chain, s: Key, b: Key)
    requires c.Tiled() && Earliest(c.bounds, s.at) == Some(b)
    ensures Chain(c.producers, c.bounds, c.stored + {s}).Tiled()
  {
    var P, B, S := c.producers, c.bounds, c.stored + {s};
    forall p | p in P ensures Owner(p.at, B, S) == Owner(p.at, B, c.stored)
      ensures Earliest(B, p.at).None? ==> Earliest(S, p.at).None? {
      if Earliest(B, p.at).None? { assert b.at < p.at; }
    }
    assert forall k :: k in Live(P, B, S) <==> k in Live(P, B, c.stored);
  }

  // ---------------------------------------------------------------- replay convergence

  /** A canonical chain is tiled, and it is the only chain of its producers and successes. */
  lemma CanonicalIsTiled(c: Chain)
    requires c.Canonical()
    ensures c.Tiled()
    ensures c == Normal(c.producers, {}, c.stored)
  {
    forall p | p in c.producers ensures Owner(p.at, c.bounds, c.stored) == Owner(p.at, {}, c.stored) {
    }
    SameOwnersSameRows(c.producers, c.bounds, {}, c.stored);
  }

  lemma TiledAndAgreesIsCanonical(c: Chain)
    requires c.Tiled()
    requires Agrees(c.producers, c.bounds, c.stored)
    ensures c.Canonical()
  {
    SameOwnersSameRows(c.producers, c.bounds, {}, c.stored);
  }

  /** The bound of the row closed by `b` moves down to `m`: replay keeps a row closed by `b` for what
      lies between, while `_normalize_chain` hands it to the next resolved row, if there is one. */
  ghost predicate MoveIsSafe(P: set<Key>, B: set<Key>, b: Key, m: Key) {
    || (forall x :: x in B ==> AtMost(x, b))
    || (forall p :: p in Row(P, B, b) ==> p.at <= m.at)
  }

  /** Replay puts every producer where it is, except those that a move from `b` to `m` takes along. */
  ghost predicate AgreesAround(P: set<Key>, B: set<Key>, S: set<Key>, b: Key, m: Key) {
    && (forall p :: p in P && Earliest(B, p.at) != Some(b) ==> Earliest(B, p.at) == Earliest(S, p.at))
    && (forall p :: p in P && Earliest(B, p.at) == Some(b) && p.at > m.at ==> Earliest(S, p.at) == Some(b))
  }

  lemma MovedBound(P: set<Key>, B: set<Key>, S: set<Key>, b: Key, m: Key)
    requires b in B && b in S && m in S && Less(m, b)
    requires Row(P, B, b) != {} && Earliest(S, Least(Row(P, B, b)).at) == Some(m)
    requires AgreesAround(P, B, S, b, m)
    ensures Normal(P, B - {b} + {m}, S).Canonical() <==> MoveIsSafe(P, B, b, m)
  {
    if MoveIsSafe(P, B, b, m) {
      SafeMove(P, B, S, b, m);
    } else {
      UnsafeMove(P, B, S, b, m);
    }
  }

  lemma SafeMove(P: set<Key>, B: set<Key>, S: set<Key>, b: Key, m: Key)
    requires b in B && b in S && m in S && Less(m, b)
    requires Row(P, B, b) != {} && Earliest(S, Least(Row(P, B, b)).at) == Some(m)
    requires AgreesAround(P, B, S, b, m)
    requires MoveIsSafe(P, B, b, m)
    ensures Normal(P, B - {b} + {m}, S).Canonical()
  {
    var C := B - {b} + {m};
    var first := Least(Row(P, B, b));
    forall p | p in P ensures Owner(p.at, C, S) == Earliest(S, p.at) {
      SafeMoveOwner(P, B, S, b, m, first, p);
    }
    NormalIsCanonical(P, C, S);
  }

  lemma NormalIsCanonical(P: set<Key>, C: set<Key>, S: set<Key>)
    requires forall p :: p in P ==> Owner(p.at, C, S) == Earliest(S, p.at)
    ensures Normal(P, C, S).Canonical()
  {
    NormalIsTiled(P, C, S);
    forall p | p in P ensures Earliest(Live(P, C, S), p.at) == Earliest(S, p.at) {
      OwnerOfLive(P, C, S, p);
    }
    TiledAndAgreesIsCanonical(Normal(P, C, S));
  }

  lemma SafeMoveOwner(P: set<Key>, B: set<Key>, S: set<Key>, b: Key, m: Key, first: Key, p: Key)
    requires b in B && b in S && m in S && Less(m, b)
    requires first in Row(P, B, b) && Earliest(S, first.at) == Some(m) && p in P
    requires p !in Row(P, B, b) ==> Earliest(B, p.at) == Earliest(S, p.at)
    requires p in Row(P, B, b) ==> first.at <= p.at
    requires p in Row(P, B, b) && p.at > m.at ==> Earliest(S, p.at) == Some(b)
    requires MoveIsSafe(P, B, b, m)
    ensures Owner(p.at, B - {b} + {m}, S) == Earliest(S, p.at)
  {
    var C := B - {b} + {m};
    if p !in Row(P, B, b) {
      OwnerOffRow(P, B, S, b, m, first, p);
    } else if p.at <= m.at {
      EarliestIs(S, p.at, m);
      EarliestIs(C, p.at, m);
    } else {
      assert forall x :: x in C ==> x.at < p.at;
    }
  }

  lemma UnsafeMove(P: set<Key>, B: set<Key>, S: set<Key>, b: Key, m: Key)
    requires b in B && Less(m, b)
    requires AgreesAround(P, B, S, b, m)
    requires !MoveIsSafe(P, B, b, m)
    ensures !Normal(P, B - {b} + {m}, S).Canonical()
  {
    var C := B - {b} + {m};
    var x :| x in B && !AtMost(x, b);
    var q :| q in Row(P, B, b) && q.at > m.at;
    assert x in C && x.at >= q.at;
    OwnerOfLive(P, C, S, q);
    assert Owner(q.at, C, S) != Some(b);
  }

  /** Rows other than the moved one keep their bound. */
  lemma OwnerOffRow(P: set<Key>, B: set<Key>, S: set<Key>, b: Key, m: Key, first: Key, p: Key)
    requires b in B && m in S && Less(m, b)
    requires first in Row(P, B, b) && first.at <= m.at
    requires p in P && p !in Row(P, B, b) && Earliest(B, p.at) == Earliest(S, p.at)
    ensures Owner(p.at, B - {b} + {m}, S) == Earliest(S, p.at)
  {
    var C := B - {b} + {m};
    match Earliest(B, p.at)
    case Some(o) =>
      // Either o lies before the moved row, or b <= o and m, being below b, is not a success for p.
      EarliestIs(C, p.at, o);
    case None =>
      assert b.at < p.at;
      assert forall x :: x in C ==> x.at < p.at;
  }

  /** When a late or on-time finding keeps the replay partition: exactly when no bound moves, or the
      row whose bound moves is the newest resolved row or has no producer after its new bound. */
  ghost predicate FailureIsSafe(c: Chain, f: Key) {
    var P := c.producers + {f};
    match Earliest(c.bounds, f.at)
    case None => true
    case Some(b) =>
      assert f in Row(P, c.bounds, b);
      var r := Earliest(c.stored, Least(Row(P, c.bounds, b)).at);
      r.Some? && Less(r.value, b) ==> MoveIsSafe(P, c.bounds, b, r.value)
  }

  ghost predicate SuccessIsSafe(c: Chain, s: Key) {
    match Earliest(c.bounds, s.at)
    case None => true
    case Some(b) =>
      var row := Row(c.producers, c.bounds, b);
      row != {} && Least(row).at <= s.at && Less(s, b) ==> MoveIsSafe(c.producers, c.bounds, b, s)
  }
}

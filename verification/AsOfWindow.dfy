/** Reading a bounded window of the newest keys as of an earlier position. */
module AsOfWindow {
  import opened Keys

  /** The newest entry of a window that keeps the newest is the newest of all. */
  lemma WindowEndsWithGreatest(w: seq<Key>, s: set<Key>, cap: nat)
    requires IsWindow(w, s, cap, KeepNewest) && cap > 0
    ensures w == [] <==> s == {}
    ensures w != [] ==> IsGreatest(w[|w| - 1], s)
  {
    if s != {} {
      var last := w[|w| - 1];
      assert last in Elements(w);
      forall x | x in s ensures AtMost(x, last) {
        if x in Elements(w) {
          var i :| 0 <= i < |w| && w[i] == x;
        }
      }
    }
  }

  lemma OneGreatest(j: Key, k: Key, s: set<Key>)
    requires IsGreatest(j, s) && IsGreatest(k, s)
    ensures j == k
  {
    assert AtMost(j, k) && AtMost(k, j);
  }

  /** How many entries `bisect_left` skips. */
  function Bisect(times: seq<Key>, k: Key): (i: nat)
    ensures i <= |times|
    ensures forall j :: 0 <= j < i ==> Less(times[j], k)
    ensures i < |times| ==> !Less(times[i], k)
  {
    if times == [] || !Less(times[0], k) then 0 else 1 + Bisect(times[1..], k)
  }

  lemma BisectUnique(times: seq<Key>, k: Key, i: nat)
    requires Ascending(times) && i <= |times|
    requires forall j :: 0 <= j < i ==> Less(times[j], k)
    requires i < |times| ==> !Less(times[i], k)
    ensures Bisect(times, k) == i
  {
  }

  function AsOf(times: seq<Key>, k: Key): Option<nat> {
    var i := Bisect(times, k);
    if i > 0 then Some(times[i - 1].at) else None
  }

  ghost function Before(s: set<Key>, k: Key): set<Key> { set x | x in s && Less(x, k) }
  ghost function AtOrAfter(s: set<Key>, k: Key): set<Key> { set x | x in s && !Less(x, k) }

  /** The answer a lookup in the whole history would give. */
  ghost predicate RightAnswer(r: Option<nat>, s: set<Key>, k: Key) {
    if Before(s, k) == {} then r == None else r == Some(Greatest(Before(s, k)).at)
  }

  lemma WindowAsOf(w: seq<Key>, s: set<Key>, cap: nat, k: Key)
    requires IsWindow(w, s, cap, KeepNewest) && cap > 0
    ensures RightAnswer(AsOf(w, k), s, k) <==> Before(s, k) == {} || |AtOrAfter(s, k)| < cap
  {
    var i := Bisect(w, k);
    if Before(s, k) == {} {
      NothingBefore(w, s, cap, k);
    } else if |AtOrAfter(s, k)| < cap {
      NewestBeforeKept(w, s, cap, k);
    } else {
      EverythingBeforeDropped(w, s, cap, k);
    }
  }

  lemma NothingBefore(w: seq<Key>, s: set<Key>, cap: nat, k: Key)
    requires IsWindow(w, s, cap, KeepNewest) && Before(s, k) == {}
    ensures Bisect(w, k) == 0
  {
    assert forall i :: 0 <= i < |w| ==> w[i] in Elements(w) && (Less(w[i], k) <==> w[i] in Before(s, k));
  }

  lemma NewestBeforeKept(w: seq<Key>, s: set<Key>, cap: nat, k: Key)
    requires IsWindow(w, s, cap, KeepNewest) && Before(s, k) != {} && |AtOrAfter(s, k)| < cap
    ensures Bisect(w, k) > 0 && w[Bisect(w, k) - 1] == Greatest(Before(s, k))
  {
    var g := Greatest(Before(s, k));
    NewestBeforeInWindow(w, s, cap, k, g);
    var i :| 0 <= i < |w| && w[i] == g;
    forall j | i < j < |w| ensures !Less(w[j], k) {
      assert w[j] in Elements(w) && Less(g, w[j]);
      assert Less(w[j], k) <==> w[j] in Before(s, k);
    }
    assert forall j :: 0 <= j <= i ==> Less(w[j], k);
    BisectUnique(w, k, i + 1);
  }

  lemma NewestBeforeInWindow(w: seq<Key>, s: set<Key>, cap: nat, k: Key, g: Key)
    requires IsWindow(w, s, cap, KeepNewest) && |AtOrAfter(s, k)| < cap && IsGreatest(g, Before(s, k))
    ensures g in w
  {
    if g !in Elements(w) {
      AscendingSize(w);
      assert Elements(w) <= AtOrAfter(s, k) by {
        forall y | y in Elements(w) ensures y in AtOrAfter(s, k) {
          assert Preferred(y, g, KeepNewest);
          assert Less(y, k) ==> y in Before(s, k);
        }
      }
      SubsetSize(Elements(w), AtOrAfter(s, k));
      SubsetOfSameSize(Elements(w), s);
    }
  }

  lemma EverythingBeforeDropped(w: seq<Key>, s: set<Key>, cap: nat, k: Key)
    requires IsWindow(w, s, cap, KeepNewest) && |AtOrAfter(s, k)| >= cap
    ensures Bisect(w, k) == 0
  {
    if Bisect(w, k) > 0 {
      var y := w[0];
      assert y in Elements(w);
      AscendingSize(w);
      assert y !in AtOrAfter(s, k);
      if AtOrAfter(s, k) <= Elements(w) {
        SubsetSize(AtOrAfter(s, k) + {y}, Elements(w));
      } else {
        var x :| x in AtOrAfter(s, k) && x !in Elements(w);
      }
    }
  }

  lemma BisectSplits(keys: seq<Key>, k: Key)
    requires Ascending(keys)
    ensures forall i :: 0 <= i < |keys| ==> (Less(keys[i], k) <==> i < Bisect(keys, k))
  {
  }

  /** Elements of a set that lie beyond everything else of it. */
  ghost predicate UpperPart(part: set<Key>, all: set<Key>) {
    part <= all && forall x, y :: x in all && x !in part && y in part ==> Less(x, y)
  }

  lemma PrefixIsUpper(w: seq<Key>, s: set<Key>, cap: nat, k: Key)
    requires IsWindow(w, s, cap, KeepNewest)
    ensures var p := w[..Bisect(w, k)]; Ascending(p) && |Elements(p)| == |p|
    ensures Elements(w[..Bisect(w, k)]) == Before(Elements(w), k)
    ensures UpperPart(Elements(w[..Bisect(w, k)]), Before(s, k))
  {
    var p := w[..Bisect(w, k)];
    BisectSplits(w, k);
    AscendingSize(p);
    forall x | x in Before(Elements(w), k) ensures x in Elements(p) {
      var i :| 0 <= i < |w| && w[i] == x;
      assert p[i] == x;
    }
    assert forall i :: 0 <= i < |p| ==> p[i] == w[i];
  }

  lemma WindowIsUpper(w: seq<Key>, s: set<Key>, cap: nat)
    requires IsWindow(w, s, cap, KeepNewest)
    ensures UpperPart(Elements(w), s) && Ascending(w) && |Elements(w)| == |w| == Min(|s|, cap)
  {
    AscendingSize(w);
  }

  lemma PrefixFits(w: seq<Key>, s: set<Key>, cap: nat, k: Key)
    requires IsWindow(w, s, cap, KeepNewest)
    ensures |w[..Bisect(w, k)]| <= Min(|Before(s, k)|, cap)
  {
    PrefixIsUpper(w, s, cap, k);
    SubsetSize(Elements(w[..Bisect(w, k)]), Before(s, k));
  }

  lemma NestedUpper(a: set<Key>, b: set<Key>, all: set<Key>, m: nat, n: nat)
    requires UpperPart(a, all) && UpperPart(b, all) && |a| == m <= n == |b|
    ensures a <= b
  {
    if y :| y in a && y !in b {
      forall x | x in b ensures x in a {
        assert Less(y, x);
      }
      SubsetSize(b + {y}, a);
    }
  }

  lemma SuffixOfUpper(p: seq<Key>, r: seq<Key>, all: set<Key>)
    requires Ascending(p) && Ascending(r) && |Elements(p)| == |p| && |Elements(r)| == |r|
    requires Elements(p) <= Elements(r) <= all && UpperPart(Elements(p), all)
    ensures |p| <= |r| && p == r[|r| - |p|..]
  {
    SubsetSize(Elements(p), Elements(r));
    var q := r[|r| - |p|..];
    AscendingSize(q);
    forall y | y in Elements(p) ensures y in Elements(q) {
      var i :| 0 <= i < |r| && r[i] == y;
      NotFarFromEnd(p, r, all, i);
      assert q[i - (|r| - |p|)] == y;
    }
    SubsetOfSameSize(Elements(p), Elements(q));
    AscendingUnique(p, q);
  }

  lemma NotFarFromEnd(p: seq<Key>, r: seq<Key>, all: set<Key>, i: nat)
    requires Ascending(r) && i < |r| && r[i] in Elements(p) && |Elements(p)| == |p|
    requires Elements(r) <= all && UpperPart(Elements(p), all)
    ensures |r| - i <= |p|
  {
    AscendingSize(r[i..]);
    forall z | z in Elements(r[i..]) ensures z in Elements(p) {
      var j :| 0 <= j < |r[i..]| && r[i..][j] == z;
      assert z == r[i + j] && z in Elements(r);
    }
    SubsetSize(Elements(r[i..]), Elements(p));
  }

  lemma PrefixSize(w: seq<Key>, s: set<Key>, cap: nat, k: Key)
    requires IsWindow(w, s, cap, KeepNewest) && cap > 0
    ensures Bisect(w, k) == Min(|Before(s, k)|, cap)
      <==> |s| <= cap || AtOrAfter(s, k) == {} || Before(s, k) == {}
  {
    var p := w[..Bisect(w, k)];
    PrefixIsUpper(w, s, cap, k);
    AscendingSize(w);
    assert s == Before(s, k) + AtOrAfter(s, k);
    if |s| <= cap {
      WindowOfAll(w, s, cap, KeepNewest);
    } else if Before(s, k) == {} {
      assert Before(Elements(w), k) == {};
    } else if AtOrAfter(s, k) == {} {
      assert Before(Elements(w), k) == Elements(w);
    } else if p != [] {
      LaterAllKept(w, s, cap, k, p[0]);
    }
  }

  /** If anything before `k` is still held, nothing at or after it was dropped. */
  lemma LaterAllKept(w: seq<Key>, s: set<Key>, cap: nat, k: Key, y: Key)
    requires IsWindow(w, s, cap, KeepNewest) && |w| == |Elements(w)| == cap < |s| && y in w && Less(y, k)
    requires Elements(w[..Bisect(w, k)]) == Before(Elements(w), k) && |Before(Elements(w), k)| == Bisect(w, k)
    requires AtOrAfter(s, k) != {}
    ensures Bisect(w, k) < Min(|Before(s, k)|, cap)
  {
    SplitSize(s, k);
    SplitSize(Elements(w), k);
    SameLater(w, s, cap, k, y);
    hide Before, AtOrAfter, Elements, IsWindow;
    var later := AtOrAfter(s, k);
    assert |later| > 0;
  }

  lemma SplitSize(s: set<Key>, k: Key)
    ensures |s| == |Before(s, k)| + |AtOrAfter(s, k)|
  {
    assert s == Before(s, k) + AtOrAfter(s, k);
    assert Before(s, k) !! AtOrAfter(s, k);
  }

  lemma SameLater(w: seq<Key>, s: set<Key>, cap: nat, k: Key, y: Key)
    requires IsWindow(w, s, cap, KeepNewest) && y in w && Less(y, k)
    ensures AtOrAfter(Elements(w), k) == AtOrAfter(s, k)
  {
    assert y in Elements(w);
    forall x | x in AtOrAfter(s, k) ensures x in Elements(w) {
    }
  }
}

/** Fold-order positions: the `(observed_at, event_id)` key that every reducer orders by, and the
    bounded sorted windows of keys that projections retain.

    An instant is a number of microseconds since `datetime.min`, so 0 is `datetime.min` itself.  An
    event id is represented by its rank in string order, 0 being the empty string: the code only ever
    compares ids.
 */
module Keys {

  datatype Option<+T> = None | Some(value: T)

  datatype Key = Key(at: nat, eid: nat)

  /** `_MIN_KEY`: earlier than every event. */
  const MIN_KEY := Key(0, 0)

  /** The order of Python tuples `(at, eid)`. */
  predicate Less(a: Key, b: Key) {
    a.at < b.at || (a.at == b.at && a.eid < b.eid)
  }

  predicate AtMost(a: Key, b: Key) {
    a == b || Less(a, b)
  }

  function Min(a: nat, b: nat): nat {
    if a < b then a else b
  }

  /** Removal in place: the others keep their order. */
  function Without<T>(items: seq<T>, k: nat): seq<T>
    requires k < |items|
  {
    items[..k] + items[k + 1..]
  }

  /** 1970-01-01T00:00:00Z, in microseconds since `datetime.min`. */
  const EPOCH: nat := 62135596800000000

  /** Bounded provenance: retained source events per projection row. */
  const MAX_DERIVED_FROM := 64

  /** The id list that provenance shows for a key list. */
  function Ids(keys: seq<Key>): seq<nat> {
    seq(|keys|, i requires 0 <= i < |keys| => keys[i].eid)
  }

  /** Keys for a row written before keyed provenance existed. */
  function AnchorIds(ids: seq<nat>): seq<Key> {
    seq(|ids|, i requires 0 <= i < |ids| => Key(EPOCH, ids[i]))
  }

  function Elements(s: seq<Key>): set<Key> {
    set k | k in s
  }

  predicate Ascending(s: seq<Key>) {
    forall i, j :: 0 <= i < j < |s| ==> Less(s[i], s[j])
  }

  // ---------------------------------------------------------------- extrema of finite sets

  ghost predicate IsLeast(k: Key, s: set<Key>) {
    k in s && forall x :: x in s ==> AtMost(k, x)
  }

  ghost predicate IsGreatest(k: Key, s: set<Key>) {
    k in s && forall x :: x in s ==> AtMost(x, k)
  }

  ghost function Least(s: set<Key>): (k: Key)
    requires s != {}
    ensures IsLeast(k, s)
  {
    var x :| x in s;
    if s == {x} then x
    else
      assert s == {x} + (s - {x});
      var y := Least(s - {x});
      if Less(x, y) then x else y
  }

  ghost function Greatest(s: set<Key>): (k: Key)
    requires s != {}
    ensures IsGreatest(k, s)
  {
    var x :| x in s;
    if s == {x} then x
    else
      assert s == {x} + (s - {x});
      var y := Greatest(s - {x});
      if Less(x, y) then y else x
  }

  /** `v` is the latest of the instants `s`, absent when there is none. */
  ghost predicate IsMax(v: Option<nat>, s: set<nat>) {
    if s == {} then v == None else v.Some? && v.value in s && forall x :: x in s ==> x <= v.value
  }

  /** `v` is the earliest of the instants `s`. */
  ghost predicate IsMin(v: Option<nat>, s: set<nat>) {
    if s == {} then v == None else v.Some? && v.value in s && forall x :: x in s ==> v.value <= x
  }

  // ---------------------------------------------------------------- sorted lists as sets

  lemma {:induction false} AscendingSize(s: seq<Key>)
    requires Ascending(s)
    ensures |Elements(s)| == |s|
  {
    if s != [] {
      var front, last := s[..|s| - 1], s[|s| - 1];
      AscendingSize(front);
      assert Elements(s) == Elements(front) + {last};
      assert last !in front;
    }
  }

  /** A sorted duplicate-free list is determined by its set of elements. */
  lemma {:induction false} AscendingUnique(s: seq<Key>, t: seq<Key>)
    requires Ascending(s) && Ascending(t) && Elements(s) == Elements(t)
    ensures s == t
  {
    AscendingSize(s);
    AscendingSize(t);
    if s != [] {
      var a, b := s[|s| - 1], t[|t| - 1];
      assert a in Elements(t) && b in Elements(s);
      assert a == b;
      assert Elements(s[..|s| - 1]) == Elements(s) - {a};
      assert Elements(t[..|t| - 1]) == Elements(t) - {a};
      AscendingUnique(s[..|s| - 1], t[..|t| - 1]);
    }
  }

  // ---------------------------------------------------------------- windows

  /** Which end of the order a bounded window keeps. */
  datatype Keep = KeepEarliest | KeepNewest

  /** `a` is kept in preference to `b`. */
  predicate Preferred(a: Key, b: Key, keep: Keep) {
    if keep.KeepEarliest? then Less(a, b) else Less(b, a)
  }

  /** `w` is what remains of the set `s` after keeping `cap` keys from the chosen end, in order. */
  ghost predicate IsWindow(w: seq<Key>, s: set<Key>, cap: nat, keep: Keep) {
    && Ascending(w)
    && |w| == Min(|s|, cap)
    && Elements(w) <= s
    && forall x, y :: x in s && x !in Elements(w) && y in Elements(w) ==> Preferred(y, x, keep)
  }

  /** What the two `del` statements leave of a sorted list. */
  function Trim(v: seq<Key>, cap: nat, keep: Keep): seq<Key> {
    if keep.KeepEarliest? then v[..Min(|v|, cap)] else v[|v| - Min(|v|, cap)..]
  }

  /** The window of a set is unique, so it cannot depend on the order in which keys arrived. */
  lemma WindowUnique(v: seq<Key>, w: seq<Key>, s: set<Key>, cap: nat, keep: Keep)
    requires IsWindow(v, s, cap, keep) && IsWindow(w, s, cap, keep)
    ensures v == w
  {
    var a, b := Elements(v), Elements(w);
    AscendingSize(v);
    AscendingSize(w);
    if a != b {
      SameSizeDiffer(a, b);
      SameSizeDiffer(b, a);
      var x :| x in a - b;
      var y :| y in b - a;
      assert false;
    }
    AscendingUnique(v, w);
  }

  lemma SubsetOfSameSize<T>(a: set<T>, b: set<T>)
    requires a <= b && |b| <= |a|
    ensures a == b
  {
    assert b == a + (b - a);
    assert |b| == |a| + |b - a|;
  }

  lemma SameSizeDiffer(a: set<Key>, b: set<Key>)
    requires |a| == |b| && a != b
    ensures a - b != {}
  {
    if forall x :: x in a ==> x in b {
      SubsetOfSameSize(a, b);
    } else {
      var x :| x in a && x !in b;
      assert x in a - b;
    }
  }

  /** A window small enough to hold every key is the sorted set. */
  lemma WindowOfAll(w: seq<Key>, s: set<Key>, cap: nat, keep: Keep)
    requires IsWindow(w, s, cap, keep) && |s| <= cap
    ensures Elements(w) == s
  {
    AscendingSize(w);
    SubsetOfSameSize(Elements(w), s);
  }

  /** Trimming after an insertion: the window of a set extended by one key. */
  lemma WindowExtend(w: seq<Key>, v: seq<Key>, out: seq<Key>, s: set<Key>, k: Key, cap: nat, keep: Keep)
    requires IsWindow(w, s, cap, keep)
    requires k !in Elements(w)
    requires Ascending(v) && Elements(v) == Elements(w) + {k}
    requires out == Trim(v, cap, keep)
    ensures IsWindow(out, s + {k}, cap, keep)
  {
    AscendingSize(w);
    AscendingSize(v);
    if |w| < cap {
      // Nothing had been trimmed yet.
      WindowOfAll(w, s, cap, keep);
      assert out == v;
    } else {
      FullWindowExtend(w, v, out, s, k, cap, keep);
    }
  }

  lemma FullWindowExtend(w: seq<Key>, v: seq<Key>, out: seq<Key>, s: set<Key>, k: Key, cap: nat, keep: Keep)
    requires IsWindow(w, s, cap, keep) && |w| == cap
    requires Ascending(v) && Elements(v) == Elements(w) + {k} && |v| == cap + 1
    requires out == Trim(v, cap, keep)
    ensures IsWindow(out, s + {k}, cap, keep)
  {
    var gone := if keep.KeepEarliest? then v[cap] else v[0];
    assert v == if keep.KeepEarliest? then out + [gone] else [gone] + out;
    SplitEnd(v, out, gone, keep);
    SubsetSize(s, s + {k});
    var a, b := Elements(w), Elements(out);
    assert b <= s + {k};
    WindowDropped(a, b, gone, s, k, keep);
  }

  lemma SplitEnd(v: seq<Key>, out: seq<Key>, gone: Key, keep: Keep)
    requires Ascending(v)
    requires v == if keep.KeepEarliest? then out + [gone] else [gone] + out
    ensures Ascending(out)
    ensures Elements(v) == Elements(out) + {gone}
    ensures forall z :: z in Elements(out) ==> Preferred(z, gone, keep)
  {
    ElementsOfSum(out, [gone]);
    ElementsOfSum([gone], out);
    if keep.KeepEarliest? {
      assert forall i :: 0 <= i < |out| ==> out[i] == v[i];
      forall z | z in out ensures Less(z, gone) {
        var i :| 0 <= i < |out| && out[i] == z;
        assert v[i] == z && v[|out|] == gone;
      }
    } else {
      assert forall i :: 0 <= i < |out| ==> out[i] == v[i + 1];
      forall z | z in out ensures Less(gone, z) {
        var i :| 0 <= i < |out| && out[i] == z;
        assert v[i + 1] == z && v[0] == gone;
      }
    }
  }

  lemma ElementsOfSum(a: seq<Key>, b: seq<Key>)
    ensures Elements(a + b) == Elements(a) + Elements(b)
  {
    forall k ensures k in Elements(a + b) <==> k in Elements(a) + Elements(b) {
      assert k in a + b <==> k in a || k in b;
    }
  }

  lemma SubsetSize(a: set<Key>, b: set<Key>)
    requires a <= b
    ensures |a| <= |b|
  {
    assert b == a + (b - a);
  }

  /** When the window was already full, the one key that falls off is beyond every key kept. */
  lemma WindowDropped(w: set<Key>, out: set<Key>, gone: Key, s: set<Key>, k: Key, keep: Keep)
    requires w + {k} == out + {gone}
    requires forall z :: z in out ==> Preferred(z, gone, keep)
    requires forall x, y :: x in s && x !in w && y in w ==> Preferred(y, x, keep)
    ensures forall x, y :: x in s + {k} && x !in out && y in out ==> Preferred(y, x, keep)
  {
    forall x, y | x in s + {k} && x !in out && y in out
      ensures Preferred(y, x, keep)
    {
      if x != gone {
        assert x !in w + {k};
        assert y in w + {k} && gone in w + {k};
        if y == k {
          assert Preferred(gone, x, keep) && Preferred(y, gone, keep);
        }
      }
    }
  }

  /** `_insert_sorted`: insert `key` into a sorted list unless present, then trim to `cap`. */
  method InsertSorted(items: seq<Key>, key: Key, cap: nat, keep: Keep) returns (out: seq<Key>)
    requires Ascending(items)
    ensures Ascending(out)
    ensures forall s :: IsWindow(items, s, cap, keep) ==> IsWindow(out, s + {key}, cap, keep)
    ensures |items| < cap ==> Elements(out) == Elements(items) + {key}
  {
    if key in items {
      out := items;
      assert Elements(items) + {key} == Elements(items);
      forall s | IsWindow(items, s, cap, keep) ensures IsWindow(out, s + {key}, cap, keep) {
        assert s + {key} == s;
      }
      return;
    }
    var i := 0;
    while i < |items| && Less(items[i], key)
      invariant 0 <= i <= |items|
      invariant forall j :: 0 <= j < i ==> Less(items[j], key)
    {
      i := i + 1;
    }
    var all := items[..i] + [key] + items[i..];
    InsertedAt(items, i, key);
    out := Trim(all, cap, keep);
    TrimAscends(all, cap, keep);
    assert |items| < cap ==> out == all;
    hide IsWindow, Elements, Ascending;
    forall s | IsWindow(items, s, cap, keep) ensures IsWindow(out, s + {key}, cap, keep) {
      WindowExtend(items, all, out, s, key, cap, keep);
    }
  }

  lemma InsertedAt(items: seq<Key>, i: nat, key: Key)
    requires Ascending(items) && i <= |items| && key !in items
    requires forall j :: 0 <= j < i ==> Less(items[j], key)
    requires i < |items| ==> !Less(items[i], key)
    ensures Ascending(items[..i] + [key] + items[i..])
    ensures Elements(items[..i] + [key] + items[i..]) == Elements(items) + {key}
    ensures key !in Elements(items)
  {
    assert items == items[..i] + items[i..];
    InsertedAscends(items, i, key);
    hide Ascending;
    ElementsOfSum(items[..i], items[i..]);
    ElementsOfSum(items[..i], [key]);
    ElementsOfSum(items[..i] + [key], items[i..]);
    assert Elements([key]) == {key};
  }

  lemma InsertedAscends(items: seq<Key>, i: nat, key: Key)
    requires Ascending(items) && i <= |items| && key !in items
    requires forall j :: 0 <= j < i ==> Less(items[j], key)
    requires i < |items| ==> !Less(items[i], key)
    ensures Ascending(items[..i] + [key] + items[i..])
  {
    var all := items[..i] + [key] + items[i..];
    forall a, b | 0 <= a < b < |all| ensures Less(all[a], all[b]) {
      assert all[a] == if a < i then items[a] else if a == i then key else items[a - 1];
      assert all[b] == if b < i then items[b] else if b == i then key else items[b - 1];
      assert i < |items| ==> items[i] in items;
    }
  }

  lemma TrimAscends(v: seq<Key>, cap: nat, keep: Keep)
    requires Ascending(v)
    ensures Ascending(Trim(v, cap, keep))
  {
  }

  /** Windows of windows: what a window dropped cannot matter to a window of a larger set. */
  lemma WindowOfWindow(out: seq<Key>, s: set<Key>, w: seq<Key>, t: set<Key>, cap: nat, keep: Keep)
    requires IsWindow(w, t, cap, keep) && IsWindow(out, s + Elements(w), cap, keep)
    ensures IsWindow(out, s + t, cap, keep)
  {
    if |t| <= cap {
      WindowOfAll(w, t, cap, keep);
    } else {
      AscendingSize(w);
      AscendingSize(out);
      SubsetSize(Elements(w), s + Elements(w));
      SubsetSize(s + Elements(w), s + t);
      hide Ascending;
      forall x, y | x in s + t && x !in Elements(out) && y in Elements(out) ensures Preferred(y, x, keep) {
        if x !in s + Elements(w) {
          BeyondWindow(out, s, w, t, cap, keep, x, y);
        }
      }
    }
  }

  lemma BeyondWindow(out: seq<Key>, s: set<Key>, w: seq<Key>, t: set<Key>, cap: nat, keep: Keep, x: Key, y: Key)
    requires IsWindow(w, t, cap, keep) && IsWindow(out, s + Elements(w), cap, keep)
    requires |Elements(out)| == |Elements(w)| == cap
    requires x in t && x !in s + Elements(w) && y in Elements(out)
    ensures Preferred(y, x, keep)
  {
    if y !in Elements(w) {
      SameSizeDiffer(Elements(w), Elements(out));
      var z :| z in Elements(w) - Elements(out);
      assert Preferred(y, z, keep) && Preferred(z, x, keep);
    }
  }

  /** Merge one window into another, key by key. */
  method InsertAll(items: seq<Key>, keys: seq<Key>, cap: nat, keep: Keep, ghost s: set<Key>, ghost t: set<Key>)
      returns (out: seq<Key>)
    requires IsWindow(items, s, cap, keep) && IsWindow(keys, t, cap, keep)
    ensures IsWindow(out, s + t, cap, keep)
  {
    out := items;
    var i := 0;
    assert s + Elements(keys[..0]) == s;
    assert Ascending(items);
    hide IsWindow, Ascending, Elements;
    while i < |keys|
      invariant 0 <= i <= |keys|
      invariant IsWindow(out, s + Elements(keys[..i]), cap, keep)
    {
      ElementsNext(keys, i, s);
      out := InsertSorted(out, keys[i], cap, keep);
      i := i + 1;
    }
    assert keys[..i] == keys;
    WindowOfWindow(out, s, keys, t, cap, keep);
  }

  lemma ElementsNext(keys: seq<Key>, i: nat, s: set<Key>)
    requires i < |keys|
    ensures s + Elements(keys[..i]) + {keys[i]} == s + Elements(keys[..i + 1])
  {
    assert keys[..i + 1] == keys[..i] + [keys[i]];
    ElementsOfSum(keys[..i], [keys[i]]);
    assert Elements([keys[i]]) == {keys[i]};
  }

  lemma EmptyWindow(cap: nat, keep: Keep)
    ensures IsWindow([], {}, cap, keep)
  {
  }

  /** A bounded window keeps everything while there is room, and then drops only keys beyond all it keeps. */
  lemma WindowMeans(w: seq<Key>, s: set<Key>, cap: nat, keep: Keep)
    requires IsWindow(w, s, cap, keep)
    ensures |w| == if |s| <= cap then |s| else cap
    ensures forall x, y :: x in s && x !in w && y in w ==>
      if keep == KeepEarliest then y.at < x.at || (y.at == x.at && y.eid < x.eid) else x.at < y.at || (x.at == y.at && x.eid < y.eid)
  {
    assert forall x :: x in w <==> x in Elements(w);
  }
}

/** Rolling baselines: the newest-200 window, its reading as of a position, and its order statistics. */
module Baselines {
  import opened AsOfWindow
  import opened Keys

  /** Bounded rolling window per (entity, metric). */
  const MAX_SAMPLES := 200

  datatype Sample = Sample(key: Key, value: real)

  function KeysOf(samples: seq<Sample>): (keys: seq<Key>)
    ensures |keys| == |samples| && forall i :: 0 <= i < |keys| ==> keys[i] == samples[i].key
  {
    seq(|samples|, i requires 0 <= i < |samples| => samples[i].key)
  }

  ghost function Positions(h: set<Sample>): set<Key> { set x | x in h :: x.key }

  /** One sample per event. */
  ghost predicate DistinctKeys(h: set<Sample>) {
    forall x, y :: x in h && y in h && x.key == y.key ==> x == y
  }

  /** The stored list holds the 200 newest samples of `h` in order, and `count` says how many there were. */
  ghost predicate Describes(samples: seq<Sample>, count: nat, h: set<Sample>) {
    Retains(samples, h) && count == |h|
  }

  ghost predicate Retains(samples: seq<Sample>, h: set<Sample>) {
    && IsWindow(KeysOf(samples), Positions(h), MAX_SAMPLES, KeepNewest)
    && (forall x :: x in samples ==> x in h)
  }

  class Baseline {
    var samples: seq<Sample>
    var count: nat

    constructor ()
      ensures samples == [] && count == 0 && Describes(samples, count, {})
    {
      samples, count := [], 0;
      assert Positions({}) == {};
    }

    /** `update_baselines` for one observation.  A new position joins the history; one that was folded before
        changes no sample, but is counted again when it has left the window. */
    method Update(x: Sample, ghost h: set<Sample>)
      requires Retains(samples, h)
      modifies this
      ensures x.key !in Positions(h) ==> Retains(samples, h + {x}) && (old(count) == |h| ==> Describes(samples, count, h + {x}))
      ensures x.key in Positions(h) ==> samples == old(samples)
      ensures count == old(count) + if x.key in KeysOf(old(samples)) then 0 else 1
    {
      var inserted := forall i :: 0 <= i < |samples| ==> samples[i].key != x.key;
      StoredOrNot(samples, x.key);
      NotYetFolded(samples, x, h);
      hide IsWindow, Positions;
      if inserted {
        var i := Position(samples, x.key);
        var entries := samples[..i] + [x] + samples[i..];
        if x.key in Positions(h) {
          FellOut(samples, i, x, h);
        } else {
          UpdateWindow(samples, i, x, h);
          UpdateMembers(entries, samples, i, x, h);
        }
        hide KeysOf;
        if |entries| > MAX_SAMPLES {
          entries := entries[|entries| - MAX_SAMPLES..];
        }
        samples, count := entries, count + 1;
      }
    }
  }

  lemma StoredOrNot(samples: seq<Sample>, key: Key)
    ensures key in KeysOf(samples) <==> exists i :: 0 <= i < |samples| && samples[i].key == key
  {
    if i :| 0 <= i < |samples| && samples[i].key == key {
      assert KeysOf(samples)[i] == key;
    }
  }

  /** A position that has left the window precedes all of it, and is trimmed off again. */
  lemma FellOut(samples: seq<Sample>, i: nat, x: Sample, h: set<Sample>)
    requires Retains(samples, h) && x.key in Positions(h) && i <= |samples|
    requires forall j :: 0 <= j < |samples| ==> samples[j].key != x.key
    requires forall j :: 0 <= j < i ==> Less(samples[j].key, x.key)
    ensures |samples| == MAX_SAMPLES && i == 0
    ensures (samples[..i] + [x] + samples[i..])[1..] == samples
  {
    var keys := KeysOf(samples);
    assert x.key !in Elements(keys);
    if |keys| == |Positions(h)| {
      AllKept(keys, Positions(h));
      assert false;
    }
    assert keys != [] ==> keys[0] in Elements(keys);
  }

  lemma AllKept(keys: seq<Key>, s: set<Key>)
    requires IsWindow(keys, s, MAX_SAMPLES, KeepNewest) && |keys| == |s|
    ensures Elements(keys) == s
  {
    AscendingSize(keys);
    SubsetFull(Elements(keys), s);
  }

  lemma SubsetFull(a: set<Key>, b: set<Key>)
    requires a <= b && |a| == |b|
    ensures a == b
  {
    assert |b - a| == |b| - |a|;
  }

  /** Where appending and sorting puts a new key. */
  method Position(samples: seq<Sample>, key: Key) returns (i: nat)
    ensures i <= |samples| && (i < |samples| ==> !Less(samples[i].key, key))
    ensures forall j :: 0 <= j < i ==> Less(samples[j].key, key)
  {
    i := 0;
    while i < |samples| && Less(samples[i].key, key)
      invariant 0 <= i <= |samples|
      invariant forall j :: 0 <= j < i ==> Less(samples[j].key, key)
    {
      i := i + 1;
    }
  }

  lemma NotYetFolded(samples: seq<Sample>, x: Sample, h: set<Sample>)
    requires forall y :: y in samples ==> y in h
    ensures x.key !in Positions(h) ==> (forall i :: 0 <= i < |samples| ==> samples[i].key != x.key) && |h + {x}| == |h| + 1
  {
    forall i | 0 <= i < |samples| ensures samples[i].key in Positions(h) {
      assert samples[i] in h;
    }
    if x.key !in Positions(h) {
      assert x !in h;
    }
  }

  lemma UpdateWindow(samples: seq<Sample>, i: nat, x: Sample, h: set<Sample>)
    requires IsWindow(KeysOf(samples), Positions(h), MAX_SAMPLES, KeepNewest) && i <= |samples|
    requires forall j :: 0 <= j < |samples| ==> samples[j].key != x.key
    requires forall j :: 0 <= j < i ==> Less(samples[j].key, x.key)
    requires i < |samples| ==> !Less(samples[i].key, x.key)
    ensures var entries := samples[..i] + [x] + samples[i..];
      IsWindow(KeysOf(if |entries| > MAX_SAMPLES then entries[|entries| - MAX_SAMPLES..] else entries), Positions(h + {x}), MAX_SAMPLES, KeepNewest)
  {
    var keys, entries := KeysOf(samples), samples[..i] + [x] + samples[i..];
    hide IsWindow;
    assert x.key !in keys;
    assert Positions(h + {x}) == Positions(h) + {x.key};
    assert KeysOf(entries) == keys[..i] + [x.key] + keys[i..];
    assert KeysOf(if |entries| > MAX_SAMPLES then entries[|entries| - MAX_SAMPLES..] else entries)
        == Trim(KeysOf(entries), MAX_SAMPLES, KeepNewest);
    hide KeysOf, Positions;
    InsertedWindow(keys, i, x.key, Positions(h));
  }

  lemma InsertedWindow(keys: seq<Key>, i: nat, key: Key, s: set<Key>)
    requires IsWindow(keys, s, MAX_SAMPLES, KeepNewest) && i <= |keys| && key !in keys
    requires forall j :: 0 <= j < i ==> Less(keys[j], key)
    requires i < |keys| ==> !Less(keys[i], key)
    ensures IsWindow(Trim(keys[..i] + [key] + keys[i..], MAX_SAMPLES, KeepNewest), s + {key}, MAX_SAMPLES, KeepNewest)
  {
    var all := keys[..i] + [key] + keys[i..];
    InsertedAt(keys, i, key);
    WindowExtend(keys, all, Trim(all, MAX_SAMPLES, KeepNewest), s, key, MAX_SAMPLES, KeepNewest);
  }

  lemma UpdateMembers(entries: seq<Sample>, samples: seq<Sample>, i: nat, x: Sample, h: set<Sample>)
    requires i <= |samples| && entries == samples[..i] + [x] + samples[i..] && forall y :: y in samples ==> y in h
    ensures forall y :: y in entries ==> y in h + {x}
  {
  }

  /** Arrival order leaves no trace in the stored window. */
  lemma WindowIsUnique(a: seq<Sample>, b: seq<Sample>, m: nat, n: nat, h: set<Sample>)
    requires Describes(a, m, h) && Describes(b, n, h) && DistinctKeys(h)
    ensures a == b && m == n
  {
    WindowUnique(KeysOf(a), KeysOf(b), Positions(h), MAX_SAMPLES, KeepNewest);
    forall i | 0 <= i < |a| ensures a[i] == b[i] {
      assert KeysOf(a)[i] == KeysOf(b)[i] && a[i] in h && b[i] in h;
    }
  }

  // ---------------------------------------------------------------- as of a position

  /** `window_before`: the retained samples that precede `k`. */
  method WindowBefore(samples: seq<Sample>, k: Key) returns (r: seq<Sample>)
    requires Ascending(KeysOf(samples))
    ensures r == samples[..Bisect(KeysOf(samples), k)]
  {
    r := [];
    var i := 0;
    BisectSplits(KeysOf(samples), k);
    while i < |samples|
      invariant 0 <= i <= |samples|
      invariant r == samples[..if i < Bisect(KeysOf(samples), k) then i else Bisect(KeysOf(samples), k)]
    {
      if Less(samples[i].key, k) {
        r := r + [samples[i]];
      }
      i := i + 1;
    }
  }

  /** What the window holds before `k` is always a suffix of what an observed-order replay would hold
      at `k`; the two are equal exactly when nothing was ever dropped, or nothing lies at or after `k`,
      or nothing before it. */
  lemma BeforeIsSuffixOfReplay(w: seq<Key>, s: set<Key>, k: Key, replay: seq<Key>)
    requires IsWindow(w, s, MAX_SAMPLES, KeepNewest) && IsWindow(replay, Before(s, k), MAX_SAMPLES, KeepNewest)
    ensures var p := w[..Bisect(w, k)];
      && |p| <= |replay| && p == replay[|replay| - |p|..]
      && (p == replay <==> |s| <= MAX_SAMPLES || AtOrAfter(s, k) == {} || Before(s, k) == {})
  {
    var p := w[..Bisect(w, k)];
    PrefixIsUpper(w, s, MAX_SAMPLES, k);
    WindowIsUpper(replay, Before(s, k), MAX_SAMPLES);
    PrefixFits(w, s, MAX_SAMPLES, k);
    NestedUpper(Elements(p), Elements(replay), Before(s, k), |p|, |replay|);
    SuffixOfUpper(p, replay, Before(s, k));
    PrefixSize(w, s, MAX_SAMPLES, k);
  }

  // ---------------------------------------------------------------- order statistics

  ghost predicate Ordered(xs: seq<real>) {
    forall i, j :: 0 <= i <= j < |xs| ==> xs[i] <= xs[j]
  }

  function InsertValue(x: real, xs: seq<real>): seq<real> {
    if xs == [] || x <= xs[0] then [x] + xs else [xs[0]] + InsertValue(x, xs[1..])
  }

  /** `sorted`. */
  function Sort(xs: seq<real>): seq<real> {
    if xs == [] then [] else InsertValue(xs[0], Sort(xs[1..]))
  }

  lemma {:induction false} InsertOrders(x: real, xs: seq<real>)
    requires Ordered(xs)
    ensures Ordered(InsertValue(x, xs)) && multiset(InsertValue(x, xs)) == multiset(xs) + multiset{x}
  {
    if xs != [] {
      assert xs == [xs[0]] + xs[1..];
      if x > xs[0] {
        InsertOrders(x, xs[1..]);
        var rest := InsertValue(x, xs[1..]);
        AllAtLeast(xs[0], rest, multiset(xs[1..]) + multiset{x});
        ConsOrdered(xs[0], rest);
        assert InsertValue(x, xs) == [xs[0]] + rest;
        hide InsertValue, Ordered;
      }
    }
  }

  lemma ConsOrdered(lo: real, xs: seq<real>)
    requires Ordered(xs) && forall i :: 0 <= i < |xs| ==> lo <= xs[i]
    ensures Ordered([lo] + xs)
  {
  }

  lemma AllAtLeast(lo: real, xs: seq<real>, contents: multiset<real>)
    requires multiset(xs) == contents && forall y :: y in contents ==> lo <= y
    ensures forall i :: 0 <= i < |xs| ==> lo <= xs[i]
  {
    forall i | 0 <= i < |xs| ensures lo <= xs[i] {
      assert xs[i] in multiset(xs);
    }
  }

  lemma {:induction false} SortOrders(xs: seq<real>)
    ensures Ordered(Sort(xs)) && multiset(Sort(xs)) == multiset(xs) && |Sort(xs)| == |xs|
  {
    if xs != [] {
      SortOrders(xs[1..]);
      InsertOrders(xs[0], Sort(xs[1..]));
      assert xs == [xs[0]] + xs[1..];
    }
    assert |multiset(Sort(xs))| == |Sort(xs)| && |multiset(xs)| == |xs|;
  }

  lemma {:induction false} OrderedUnique(a: seq<real>, b: seq<real>)
    requires Ordered(a) && Ordered(b) && multiset(a) == multiset(b)
    ensures a == b
  {
    assert |multiset(a)| == |a| && |multiset(b)| == |b|;
    if a != [] {
      HeadIsLeast(a, b);
      HeadIsLeast(b, a);
      TailContents(a);
      TailContents(b);
      OrderedUnique(a[1..], b[1..]);
    }
  }

  lemma HeadIsLeast(a: seq<real>, b: seq<real>)
    requires a != [] && b != [] && Ordered(a) && multiset(a) == multiset(b)
    ensures a[0] <= b[0]
  {
    assert b[0] in multiset(a);
  }

  lemma TailContents(a: seq<real>)
    requires a != []
    ensures a == [a[0]] + a[1..] && multiset(a[1..]) == multiset(a) - multiset{a[0]}
  {
    assert a == [a[0]] + a[1..];
  }

  function Median(ordered: seq<real>): real
    requires ordered != []
  {
    var n := |ordered|;
    if n % 2 == 1 then ordered[n / 2] else (ordered[n / 2 - 1] + ordered[n / 2]) / 2.0
  }

  function Distance(x: real, y: real): real {
    if x < y then y - x else x - y
  }

  function Deviations(ordered: seq<real>, m: real): (r: seq<real>)
    ensures |r| == |ordered|
  {
    seq(|ordered|, i requires 0 <= i < |ordered| => Distance(ordered[i], m))
  }

  function Sum(xs: seq<real>): real {
    if xs == [] then 0.0 else Sum(xs[..|xs| - 1]) + xs[|xs| - 1]
  }

  /** Python's `round(m / 10)`: ties go to the even neighbour. */
  function RoundTenth(m: nat): nat {
    var q, r := m / 10, m % 10;
    if r < 5 || (r == 5 && q % 2 == 0) then q else q + 1
  }

  /** The entry at `tenths / 10` of the way through the list. */
  function Percentile(ordered: seq<real>, tenths: nat): real
    requires ordered != []
  {
    var n := |ordered|;
    ordered[Min(n - 1, RoundTenth(tenths * (n - 1)))]
  }

  datatype Stats = Stats(median: real, mad: real, mean: real, p10: real, p90: real)

  /** `compute`. */
  function Compute(values: seq<real>): Option<Stats> {
    if values == [] then None
    else
      var ordered := Sort(values);
      assert ordered != [] by { SortOrders(values); }
      var median := Median(ordered);
      var deviations := Sort(Deviations(ordered, median));
      assert deviations != [] by { SortOrders(Deviations(ordered, median)); }
      Some(Stats(median, Median(deviations), Sum(ordered) / |ordered| as real, Percentile(ordered, 1), Percentile(ordered, 9)))
  }

  /** The statistics depend on which values the window holds, not on their order. */
  lemma StatsIgnoreOrder(a: seq<real>, b: seq<real>)
    requires multiset(a) == multiset(b)
    ensures Compute(a) == Compute(b)
  {
    SortOrders(a);
    SortOrders(b);
    OrderedUnique(Sort(a), Sort(b));
    assert |multiset(a)| == |a| && |multiset(b)| == |b|;
  }

  /** The median has at least half the values on either side, the percentiles bracket it, and the mean
      lies between the extremes. */
  lemma StatsAreInOrder(values: seq<real>)
    requires values != []
    ensures var s := Compute(values).value; var ordered := Sort(values); var n := |values|;
      && |ordered| == n
      && (forall i :: 0 <= i < (n + 1) / 2 ==> ordered[i] <= s.median)
      && (forall i :: n / 2 <= i < n ==> s.median <= ordered[i])
      && ordered[0] <= s.p10 <= s.median <= s.p90 <= ordered[n - 1]
      && ordered[0] <= s.mean <= ordered[n - 1]
      && 0.0 <= s.mad
  {
    SortOrders(values);
    var ordered, n := Sort(values), |values|;
    MedianSplits(ordered);
    PercentilesBracket(ordered);
    MeanBetween(ordered, n);
    MadPositive(ordered, Median(ordered));
  }

  lemma MedianSplits(ordered: seq<real>)
    requires ordered != [] && Ordered(ordered)
    ensures forall i :: 0 <= i < (|ordered| + 1) / 2 ==> ordered[i] <= Median(ordered)
    ensures forall i :: |ordered| / 2 <= i < |ordered| ==> Median(ordered) <= ordered[i]
  {
  }

  lemma PercentilesBracket(ordered: seq<real>)
    requires ordered != [] && Ordered(ordered)
    ensures ordered[0] <= Percentile(ordered, 1) <= Median(ordered) <= Percentile(ordered, 9) <= ordered[|ordered| - 1]
  {
    var n := |ordered|;
    MedianSplits(ordered);
    assert RoundTenth(n - 1) < (n + 1) / 2;
    assert Min(n - 1, RoundTenth(9 * (n - 1))) >= n / 2;
  }

  lemma {:induction false} SumBetween(ordered: seq<real>, n: nat)
    requires ordered != [] && Ordered(ordered) && n == |ordered|
    ensures ordered[0] * n as real <= Sum(ordered) <= ordered[n - 1] * n as real
  {
    if n > 1 {
      SumBetween(ordered[..n - 1], n - 1);
      Scale(ordered[n - 2], ordered[n - 1], n - 1);
    }
  }

  lemma Scale(x: real, y: real, n: nat)
    requires x <= y
    ensures x * n as real <= y * n as real
    ensures y * n as real + y == y * (n + 1) as real
    ensures x * n as real + x == x * (n + 1) as real
  {
  }

  lemma MeanBetween(ordered: seq<real>, n: nat)
    requires ordered != [] && Ordered(ordered) && n == |ordered|
    ensures ordered[0] <= Sum(ordered) / n as real <= ordered[n - 1]
  {
    SumBetween(ordered, n);
    hide Sum, Ordered;
    Divide(ordered[0], Sum(ordered), ordered[n - 1], n as real);
  }

  lemma Divide(lo: real, sum: real, hi: real, n: real)
    requires n > 0.0 && lo * n <= sum <= hi * n
    ensures lo <= sum / n <= hi
  {
    var mean := sum / n;
    assert mean * n == sum;
    Cancel(lo, mean, n);
    Cancel(mean, hi, n);
  }

  lemma Cancel(x: real, y: real, n: real)
    requires n > 0.0 && x * n <= y * n
    ensures x <= y
  {
    assert (y - x) * n == y * n - x * n;
  }

  lemma MadPositive(ordered: seq<real>, m: real)
    requires ordered != []
    ensures Sort(Deviations(ordered, m)) != [] && 0.0 <= Median(Sort(Deviations(ordered, m)))
  {
    var d := Deviations(ordered, m);
    SortOrders(d);
    var s := Sort(d);
    forall i | 0 <= i < |s| ensures 0.0 <= s[i] {
      assert s[i] in multiset(d);
    }
  }

  lemma {:induction false} SumCons(x: real, xs: seq<real>)
    ensures Sum([x] + xs) == x + Sum(xs)
  {
    if xs == [] {
      assert [x] + xs == [x] && [x][..0] == [];
    } else {
      var n := |xs| - 1;
      assert ([x] + xs)[..|[x] + xs| - 1] == [x] + xs[..n];
      SumCons(x, xs[..n]);
    }
  }

  lemma {:induction false} SumInsert(x: real, xs: seq<real>)
    ensures Sum(InsertValue(x, xs)) == x + Sum(xs)
  {
    SumCons(x, xs);
    if xs != [] && x > xs[0] {
      SumInsert(x, xs[1..]);
      SumCons(xs[0], xs[1..]);
      SumCons(xs[0], InsertValue(x, xs[1..]));
      assert xs == [xs[0]] + xs[1..];
    }
  }

  lemma {:induction false} SumSort(xs: seq<real>)
    ensures Sum(Sort(xs)) == Sum(xs)
  {
    if xs != [] {
      SumSort(xs[1..]);
      SumInsert(xs[0], Sort(xs[1..]));
      SumCons(xs[0], xs[1..]);
      assert xs == [xs[0]] + xs[1..];
    }
  }

  /** `k` is the whole number nearest to `m / 10`, the even one of two. */
  predicate NearestTenth(k: nat, m: nat) {
    && -5 <= 10 * k - m <= 5
    && (10 * k - m == 5 || 10 * k - m == -5 ==> k % 2 == 0)
  }

  lemma RoundTenthIs(m: nat)
    ensures NearestTenth(RoundTenth(m), m)
  {
  }

  /** The statistics exactly, for any way of sorting the values and their distances from the median: the median
      is the middle value or the mean of the two middle ones, and so is the deviation among the distances; the
      percentiles are the values at the nearest index to a tenth and nine tenths of the way. */
  lemma StatsAreExact(values: seq<real>, ordered: seq<real>, distances: seq<real>)
    requires values != [] && Ordered(ordered) && multiset(ordered) == multiset(values)
    requires Ordered(distances) && multiset(distances) == multiset(Deviations(ordered, Compute(values).value.median))
    ensures var s := Compute(values).value; var n := |values|;
      && |ordered| == |distances| == n
      && 2.0 * s.median == ordered[(n - 1) / 2] + ordered[n / 2]
      && 2.0 * s.mad == distances[(n - 1) / 2] + distances[n / 2]
      && (exists k: nat :: k < n && NearestTenth(k, n - 1) && s.p10 == ordered[k])
      && (exists k: nat :: k < n && NearestTenth(k, 9 * (n - 1)) && s.p90 == ordered[k])
  {
    ComputeIs(values, ordered, distances);
    hide Compute, Ordered, Sum, Deviations;
    MedianMiddle(ordered);
    MedianMiddle(distances);
    PercentileAt(ordered, 1);
    PercentileAt(ordered, 9);
    hide Median, Percentile, NearestTenth;
  }

  /** The mean is the sum of the values, in any order, by their number. */
  lemma MeanIsExact(values: seq<real>)
    requires values != []
    ensures Compute(values).value.mean == Sum(values) / |values| as real
  {
    SortOrders(values);
    SumSort(values);
    hide Sort, Sum, Median, Deviations, Percentile;
  }

  lemma ComputeIs(values: seq<real>, ordered: seq<real>, distances: seq<real>)
    requires values != [] && Ordered(ordered) && multiset(ordered) == multiset(values)
    requires Ordered(distances) && multiset(distances) == multiset(Deviations(ordered, Compute(values).value.median))
    ensures |ordered| == |distances| == |values|
    ensures Compute(values).value
         == Stats(Median(ordered), Median(distances), Sum(values) / |values| as real, Percentile(ordered, 1), Percentile(ordered, 9))
  {
    SortOrders(values);
    OrderedUnique(Sort(values), ordered);
    var deviations := Deviations(ordered, Median(ordered));
    SortOrders(deviations);
    OrderedUnique(Sort(deviations), distances);
    SumSort(values);
    hide Sort, Ordered, Sum, Deviations, Median, Percentile;
  }

  lemma PercentileAt(ordered: seq<real>, tenths: nat)
    requires ordered != [] && tenths <= 10
    ensures exists k: nat :: k < |ordered| && NearestTenth(k, tenths * (|ordered| - 1)) && Percentile(ordered, tenths) == ordered[k]
  {
    var n := |ordered|;
    var m := tenths * (n - 1);
    RoundTenthIs(m);
    assert m <= 10 * (n - 1);
    var k := RoundTenth(m);
    assert k < n && Percentile(ordered, tenths) == ordered[k];
  }

  lemma MedianMiddle(ordered: seq<real>)
    requires ordered != []
    ensures 2.0 * Median(ordered) == ordered[(|ordered| - 1) / 2] + ordered[|ordered| / 2]
  {
  }

  /** The distance of a value from the median. */
  lemma DeviationIs(ordered: seq<real>, m: real, i: nat)
    requires i < |ordered|
    ensures Deviations(ordered, m)[i] == if ordered[i] >= m then ordered[i] - m else m - ordered[i]
  {
  }
}

/** Which files the spool gives up, and in which order: `_evict_oldest` and the loop around it. */
module SpoolEviction {
  import opened Keys
  import opened SpoolFiles

  /** `_evict_oldest`: the oldest idle segment or, when no segment is idle, the oldest idle file. */
  predicate IsOldest(files: seq<File>, active: set<Name>, k: nat) {
    && k < |files| && files[k].name !in active
    && (forall j :: 0 <= j < k ==> !Pending(files[j], active))
    && (!files[k].kind.Segment? ==>
          forall j :: 0 <= j < |files| && files[j].name !in active ==> !files[j].kind.Segment? && k <= j)
  }

  /** A segment nobody writes to any more. */
  predicate Pending(f: File, active: set<Name>) {
    f.name !in active && f.kind.Segment?
  }

  /** A quarantined file nobody writes to. */
  predicate SetAside(f: File, active: set<Name>) {
    f.name !in active && !f.kind.Segment?
  }

  method FindOldest(files: seq<File>, active: set<Name>) returns (found: bool, k: nat)
    ensures found ==> IsOldest(files, active, k)
    ensures !found ==> forall f :: f in files ==> f.name in active
  {
    var fallback, hasFallback := 0, false;
    var i := 0;
    while i < |files|
      invariant 0 <= i <= |files|
      invariant forall j :: 0 <= j < i ==> !Pending(files[j], active)
      invariant hasFallback ==> fallback < i && files[fallback].name !in active
      invariant hasFallback ==> forall j :: 0 <= j < i && files[j].name !in active ==> fallback <= j
      invariant !hasFallback ==> forall j :: 0 <= j < i ==> files[j].name in active
    {
      if files[i].name !in active {
        if files[i].kind.Segment? {
          return true, i;
        }
        if !hasFallback {
          fallback, hasFallback := i, true;
        }
      }
      i := i + 1;
    }
    if hasFallback {
      assert !Pending(files[fallback], active);
    }
    return hasFallback, fallback;
  }

  datatype Which = PendingOnes | SetAsideOnes | OpenOnes

  predicate Is(f: File, active: set<Name>, w: Which) {
    match w
    case PendingOnes => Pending(f, active)
    case SetAsideOnes => SetAside(f, active)
    case OpenOnes => f.name in active
  }

  /** The files of one sort, in name order. */
  function Pick(files: seq<File>, active: set<Name>, w: Which): seq<File> {
    if files == [] then []
    else
      var n := |files| - 1;
      Pick(files[..n], active, w) + if Is(files[n], active, w) then [files[n]] else []
  }

  /** The order in which files may be evicted: idle segments oldest first, then quarantined files. */
  function Order(files: seq<File>, active: set<Name>): seq<File> {
    Pick(files, active, PendingOnes) + Pick(files, active, SetAsideOnes)
  }

  /** Bytes that eviction cannot free. */
  function OpenBytes(files: seq<File>, active: set<Name>): nat {
    Total(Pick(files, active, OpenOnes))
  }

  lemma {:induction false} PickSum(a: seq<File>, b: seq<File>, active: set<Name>, w: Which)
    ensures Pick(a + b, active, w) == Pick(a, active, w) + Pick(b, active, w)
  {
    if b == [] {
      assert a + b == a;
    } else {
      var n := |b| - 1;
      assert (a + b)[..|a + b| - 1] == a + b[..n];
      PickSum(a, b[..n], active, w);
    }
  }

  lemma {:induction false} PickNone(files: seq<File>, active: set<Name>, w: Which)
    requires forall f :: f in files ==> !Is(f, active, w)
    ensures Pick(files, active, w) == []
  {
    if files != [] {
      var n := |files| - 1;
      assert files[n] in files && forall f :: f in files[..n] ==> f in files;
      PickNone(files[..n], active, w);
    }
  }

  lemma {:induction false} PickMembers(files: seq<File>, active: set<Name>, w: Which, f: File)
    ensures f in Pick(files, active, w) <==> f in files && Is(f, active, w)
  {
    if files != [] {
      var n := |files| - 1;
      PickMembers(files[..n], active, w, f);
      assert files == files[..n] + [files[n]];
    }
  }

  lemma OrderMembers(files: seq<File>, active: set<Name>, f: File)
    ensures f in Order(files, active) <==> f in files && f.name !in active
  {
    PickMembers(files, active, PendingOnes, f);
    PickMembers(files, active, SetAsideOnes, f);
  }

  /** Every byte is evictable or in an open segment. */
  lemma {:induction false} OrderTotal(files: seq<File>, active: set<Name>)
    ensures Total(Order(files, active)) + OpenBytes(files, active) == Total(files)
  {
    TotalSum(Pick(files, active, PendingOnes), Pick(files, active, SetAsideOnes));
    if files != [] {
      var n := |files| - 1;
      OrderTotal(files[..n], active);
      TotalSum(Pick(files[..n], active, PendingOnes), Pick(files[..n], active, SetAsideOnes));
      PickTotal(files, active, PendingOnes);
      PickTotal(files, active, SetAsideOnes);
      PickTotal(files, active, OpenOnes);
      hide Pick;
    }
  }

  lemma PickTotal(files: seq<File>, active: set<Name>, w: Which)
    requires files != []
    ensures var n := |files| - 1;
      Total(Pick(files, active, w)) == Total(Pick(files[..n], active, w)) + if Is(files[n], active, w) then Size(files[n].lines) else 0
  {
    var n := |files| - 1;
    var front, f := Pick(files[..n], active, w), files[n];
    assert Pick(files, active, w) == front + if Is(f, active, w) then [f] else [];
    TotalSum(front, [f]);
    TotalOne(f);
    hide Pick, Is, Total, Size;
    if !Is(f, active, w) {
      assert front + [] == front;
    }
  }

  lemma PickSplit(files: seq<File>, active: set<Name>, w: Which, k: nat)
    requires k < |files|
    ensures Pick(files, active, w)
         == Pick(files[..k], active, w) + (if Is(files[k], active, w) then [files[k]] else []) + Pick(files[k + 1..], active, w)
    ensures Pick(Without(files, k), active, w) == Pick(files[..k], active, w) + Pick(files[k + 1..], active, w)
  {
    assert files == files[..k] + [files[k]] + files[k + 1..];
    PickSum(files[..k] + [files[k]], files[k + 1..], active, w);
    PickSum(files[..k], [files[k]], active, w);
    PickSum(files[..k], files[k + 1..], active, w);
    assert [files[k]][..0] == [];
  }

  /** The code evicts the head of that order, and leaves the rest of it. */
  lemma OldestIsNext(files: seq<File>, active: set<Name>, k: nat)
    requires IsOldest(files, active, k)
    ensures Order(files, active) == [files[k]] + Order(Without(files, k), active)
  {
    hide Pick;
    PickSplit(files, active, PendingOnes, k);
    PickSplit(files, active, SetAsideOnes, k);
    if files[k].kind.Segment? {
      PickNone(files[..k], active, PendingOnes);
    } else {
      forall f | f in files ensures !Pending(f, active) {
        var j :| 0 <= j < |files| && files[j] == f;
      }
      PickNone(files, active, PendingOnes);
      forall f | f in files[..k] ensures !SetAside(f, active) {
        var j :| 0 <= j < k && files[j] == f;
      }
      PickNone(files[..k], active, SetAsideOnes);
    }
  }

  lemma NothingLeft(files: seq<File>, active: set<Name>)
    requires forall f :: f in files ==> f.name in active
    ensures Order(files, active) == []
  {
    PickNone(files, active, PendingOnes);
    PickNone(files, active, SetAsideOnes);
  }

  /** After evicting `n` files of `order` from a directory of `total` bytes, `size` more bytes fit. */
  predicate Fits(total: nat, order: seq<File>, n: nat, size: nat, maxBytes: nat)
    requires n <= |order|
  {
    total - Total(order[..n]) + size <= maxBytes
  }

  /** The loop of `append` evicts `n` files: as many as it takes, or all that may be evicted; none when
      the policy is to refuse new lines. */
  predicate MakesRoom(total: nat, order: seq<File>, n: nat, size: nat, maxBytes: nat, dropOldest: bool) {
    && n <= |order|
    && (forall m: nat :: m < n ==> !Fits(total, order, m, size, maxBytes))
    && (Fits(total, order, n, size, maxBytes) || n == |order| || !dropOldest)
    && (!dropOldest ==> n == 0)
  }

  lemma {:induction false} PrefixTotal(order: seq<File>, n: nat)
    requires n <= |order|
    ensures Total(order[..n]) <= Total(order)
  {
    assert order == order[..n] + order[n..];
    TotalSum(order[..n], order[n..]);
  }

  /** With the `drop_oldest` policy, room is found exactly when the line fits beside the open segments. */
  lemma RoomExactly(files: seq<File>, active: set<Name>, n: nat, size: nat, maxBytes: nat)
    requires MakesRoom(Total(files), Order(files, active), n, size, maxBytes, true)
    ensures Fits(Total(files), Order(files, active), n, size, maxBytes) <==> OpenBytes(files, active) + size <= maxBytes
  {
    var order := Order(files, active);
    OrderTotal(files, active);
    PrefixTotal(order, n);
    assert order[..|order|] == order;
  }

  /** Who is given up next, in terms of names: the oldest closed segment and, only when there is none, the oldest
      closed quarantined file; nothing when every file is open. */
  lemma HeadOfOrder(files: seq<File>, active: set<Name>)
    requires Sorted(files)
    ensures Order(files, active) == [] <==> forall f :: f in files ==> f.name in active
    ensures Order(files, active) != [] ==> var head := Order(files, active)[0];
      && head in files && head.name !in active
      && (forall f :: f in files && f.name !in active && f.kind == Segment ==> head.kind == Segment && head.name <= f.name)
      && (head.kind != Segment ==> forall f :: f in files && f.name !in active ==> head.name <= f.name)
  {
    var found, k := OldestAt(files, active);
    if found {
      OldestIsNext(files, active, k);
      forall f | f in files && f.name !in active ensures f.kind == Segment ==> files[k].kind == Segment && files[k].name <= f.name
        ensures files[k].kind != Segment ==> files[k].name <= f.name
      {
        var j :| 0 <= j < |files| && files[j] == f;
      }
      hide Order;
      assert files[k] in files;
    } else {
      NothingLeft(files, active);
    }
  }

  /** The scan as a search for a witness. */
  lemma OldestAt(files: seq<File>, active: set<Name>) returns (found: bool, k: nat)
    ensures found ==> IsOldest(files, active, k)
    ensures !found ==> forall f :: f in files ==> f.name in active
  {
    found, k := false, 0;
    if i :| 0 <= i < |files| && Pending(files[i], active) {
      k := FirstWhere(files, active, i, true);
      found := true;
    } else if i :| 0 <= i < |files| && files[i].name !in active {
      k := FirstWhere(files, active, i, false);
      found := true;
    }
  }

  lemma FirstWhere(files: seq<File>, active: set<Name>, i: nat, plain: bool) returns (k: nat)
    requires i < |files| && files[i].name !in active && (plain ==> files[i].kind.Segment?)
    ensures k <= i && files[k].name !in active && (plain ==> files[k].kind.Segment?)
    ensures forall j :: 0 <= j < k ==> !(files[j].name !in active && (plain ==> files[j].kind.Segment?))
  {
    k := i;
    if j :| 0 <= j < i && files[j].name !in active && (plain ==> files[j].kind.Segment?) {
      k := FirstWhere(files, active, j, plain);
    }
  }
}

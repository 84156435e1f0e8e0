/** The files of the critical-event spool: their bytes, where every line is, and the open segments of the
    destinations that share one directory.

    File names order the segments; a quarantined file keeps its place.
 */
module SpoolFiles {
  import opened Keys

  type Name = nat
  type Destination = nat

  /** The destination each name was given out to. */
  type Owners = map<Name, Destination>

  datatype Line = Line(id: nat, size: nat)

  datatype Kind = Segment | Corrupt | Dead

  datatype File = File(name: Name, owner: Destination, kind: Kind, lines: seq<Line>)

  /** Where an accepted line is, or why it left the disk. */
  datatype Place = OnDisk(name: Name) | Drained(drain: Destination) | Evicted

  type Places = map<Line, Place>

  function Size(lines: seq<Line>): nat {
    if lines == [] then 0 else Size(lines[..|lines| - 1]) + lines[|lines| - 1].size
  }

  /** `_total_size`: quarantined files count. */
  function Total(files: seq<File>): nat {
    if files == [] then 0 else Total(files[..|files| - 1]) + Size(files[|files| - 1].lines)
  }

  lemma {:induction false} TotalSum(a: seq<File>, b: seq<File>)
    ensures Total(a + b) == Total(a) + Total(b)
  {
    if b == [] {
      assert a + b == a;
    } else {
      var n := |b| - 1;
      assert (a + b)[..|a + b| - 1] == a + b[..n];
      TotalSum(a, b[..n]);
    }
  }

  lemma TotalOne(f: File)
    ensures Total([f]) == Size(f.lines)
  {
    assert [f][..0] == [];
  }

  lemma TotalAt(files: seq<File>, k: nat)
    requires k < |files|
    ensures Total(files) == Total(files[..k]) + Size(files[k].lines) + Total(files[k + 1..])
  {
    var a, f, b := files[..k], files[k], files[k + 1..];
    assert files == a + [f] + b;
    hide Total, Size;
    TotalSum(a + [f], b);
    TotalSum(a, [f]);
    TotalOne(f);
  }

  lemma SizeWith(lines: seq<Line>, line: Line)
    ensures Size(lines + [line]) == Size(lines) + line.size
  {
    assert (lines + [line])[..|lines|] == lines;
  }

  /** Directory listings are sorted by name. */
  ghost predicate Sorted(files: seq<File>) {
    forall i, j :: 0 <= i < j < |files| ==> files[i].name < files[j].name
  }

  ghost predicate Holds(files: seq<File>, name: Name, line: Line) {
    exists i :: 0 <= i < |files| && files[i].name == name && line in files[i].lines
  }

  ghost predicate Located(files: seq<File>, places: Places) {
    forall i, l :: 0 <= i < |files| && l in files[i].lines ==> l in places && places[l] == OnDisk(files[i].name)
  }

  ghost predicate NoRepeats(files: seq<File>) {
    forall i, a, b :: 0 <= i < |files| && 0 <= a < b < |files[i].lines| ==> files[i].lines[a] != files[i].lines[b]
  }

  ghost predicate Covered(files: seq<File>, places: Places) {
    forall l :: l in places && places[l].OnDisk? ==> Holds(files, places[l].name, l)
  }

  /** Every accepted line is in exactly one place; the lines on disk are exactly the contents of files. */
  ghost predicate Ledger(files: seq<File>, places: Places) {
    Located(files, places) && NoRepeats(files) && Covered(files, places)
  }

  /** Lines of `lines` leave the disk for `p`. */
  ghost function Moved(places: Places, lines: seq<Line>, p: Place): Places {
    map l | l in places :: if l in lines then p else places[l]
  }

  lemma RemoveLedger(files: seq<File>, places: Places, k: nat, p: Place)
    requires Ledger(files, places) && Sorted(files) && k < |files| && !p.OnDisk?
    ensures Ledger(Without(files, k), Moved(places, files[k].lines, p)) && Sorted(Without(files, k))
  {
    var rest, next := Without(files, k), Moved(places, files[k].lines, p);
    assert forall i :: 0 <= i < |rest| ==> rest[i] == files[if i < k then i else i + 1];
    forall i, l | 0 <= i < |rest| && l in rest[i].lines ensures l in next && next[l] == OnDisk(rest[i].name) {
      var j := if i < k then i else i + 1;
      assert l in files[j].lines && files[j].name != files[k].name;
    }
    forall l | l in next && next[l].OnDisk? ensures Holds(rest, next[l].name, l) {
      var i :| 0 <= i < |files| && files[i].name == places[l].name && l in files[i].lines;
      assert rest[if i < k then i else i - 1] == files[i];
    }
  }

  lemma RemoveTotal(files: seq<File>, k: nat)
    requires k < |files|
    ensures Total(Without(files, k)) + Size(files[k].lines) == Total(files)
  {
    TotalAt(files, k);
    TotalSum(files[..k], files[k + 1..]);
  }

  /** Renaming a segment into quarantine moves no line. */
  lemma RenameLedger(files: seq<File>, places: Places, k: nat, kind: Kind)
    requires Ledger(files, places) && Sorted(files) && k < |files|
    ensures var out := files[k := files[k].(kind := kind)];
      Ledger(out, places) && Sorted(out) && Total(out) == Total(files)
  {
    var out := files[k := files[k].(kind := kind)];
    TotalAt(files, k);
    TotalAt(out, k);
    assert out[..k] == files[..k] && out[k + 1..] == files[k + 1..];
    forall l | l in places && places[l].OnDisk? ensures Holds(out, places[l].name, l) {
      var i :| 0 <= i < |files| && files[i].name == places[l].name && l in files[i].lines;
      assert out[i].name == places[l].name && l in out[i].lines;
    }
  }

  lemma WriteLedger(files: seq<File>, places: Places, k: nat, line: Line)
    requires Ledger(files, places) && Sorted(files) && k < |files| && line !in places
    ensures var out := files[k := files[k].(lines := files[k].lines + [line])];
      Ledger(out, places[line := OnDisk(files[k].name)]) && Sorted(out) && Total(out) == Total(files) + line.size
  {
    WriteTotal(files, k, line);
    hide Total;
    WriteLocated(files, places, k, line);
    WriteCovered(files, places, k, line);
    hide Located, Covered;
  }

  lemma WriteLocated(files: seq<File>, places: Places, k: nat, line: Line)
    requires Located(files, places) && NoRepeats(files) && k < |files| && line !in places
    ensures var out := files[k := files[k].(lines := files[k].lines + [line])];
      Located(out, places[line := OnDisk(files[k].name)]) && NoRepeats(out)
  {
    assert line !in files[k].lines;
  }

  lemma WriteCovered(files: seq<File>, places: Places, k: nat, line: Line)
    requires Covered(files, places) && k < |files|
    ensures Covered(files[k := files[k].(lines := files[k].lines + [line])], places[line := OnDisk(files[k].name)])
  {
    var out := files[k := files[k].(lines := files[k].lines + [line])];
    var next := places[line := OnDisk(files[k].name)];
    forall l | l in next && next[l].OnDisk? ensures Holds(out, next[l].name, l) {
      if l == line {
        assert l in out[k].lines;
      } else {
        var i :| 0 <= i < |files| && files[i].name == places[l].name && l in files[i].lines;
        assert out[i].name == next[l].name && l in out[i].lines;
      }
    }
  }

  lemma WriteTotal(files: seq<File>, k: nat, line: Line)
    requires k < |files|
    ensures Total(files[k := files[k].(lines := files[k].lines + [line])]) == Total(files) + line.size
  {
    var out := files[k := files[k].(lines := files[k].lines + [line])];
    TotalAt(files, k);
    TotalAt(out, k);
    assert out[..k] == files[..k] && out[k + 1..] == files[k + 1..];
    SizeWith(files[k].lines, line);
  }

  /** The first write creates the file, in name order. */
  lemma CreateLedger(files: seq<File>, places: Places, k: nat, f: File)
    requires Ledger(files, places) && Sorted(files) && k <= |files| && |f.lines| == 1 && f.lines[0] !in places
    requires forall i :: 0 <= i < k ==> files[i].name < f.name
    requires forall i :: k <= i < |files| ==> f.name < files[i].name
    ensures var out := files[..k] + [f] + files[k..];
      Ledger(out, places[f.lines[0] := OnDisk(f.name)]) && Sorted(out) && Total(out) == Total(files) + f.lines[0].size
  {
    hide Total, Located, Covered, NoRepeats, Sorted, Holds;
    CreateTotal(files, k, f);
    CreateLocated(files, places, k, f);
    CreateCovered(files, places, k, f);
    CreateSorted(files, k, f);
  }

  lemma CreateSorted(files: seq<File>, k: nat, f: File)
    requires Sorted(files) && k <= |files|
    requires forall i :: 0 <= i < k ==> files[i].name < f.name
    requires forall i :: k <= i < |files| ==> f.name < files[i].name
    ensures Sorted(files[..k] + [f] + files[k..])
  {
    var out := files[..k] + [f] + files[k..];
    assert forall i :: 0 <= i < |out| ==> out[i] == if i < k then files[i] else if i == k then f else files[i - 1];
  }

  lemma CreateLocated(files: seq<File>, places: Places, k: nat, f: File)
    requires Located(files, places) && NoRepeats(files) && k <= |files| && |f.lines| == 1 && f.lines[0] !in places
    ensures var out := files[..k] + [f] + files[k..];
      Located(out, places[f.lines[0] := OnDisk(f.name)]) && NoRepeats(out)
  {
    var out := files[..k] + [f] + files[k..];
    assert forall i :: 0 <= i < |out| ==> out[i] == if i < k then files[i] else if i == k then f else files[i - 1];
  }

  lemma CreateCovered(files: seq<File>, places: Places, k: nat, f: File)
    requires Covered(files, places) && k <= |files| && |f.lines| == 1
    ensures Covered(files[..k] + [f] + files[k..], places[f.lines[0] := OnDisk(f.name)])
  {
    var out := files[..k] + [f] + files[k..];
    var next := places[f.lines[0] := OnDisk(f.name)];
    forall l | l in next && next[l].OnDisk? ensures Holds(out, next[l].name, l) {
      if l == f.lines[0] {
        assert out[k] == f && l in out[k].lines;
      } else {
        var i :| 0 <= i < |files| && files[i].name == places[l].name && l in files[i].lines;
        assert out[if i < k then i else i + 1] == files[i];
      }
    }
  }

  lemma CreateTotal(files: seq<File>, k: nat, f: File)
    requires k <= |files| && |f.lines| == 1
    ensures Total(files[..k] + [f] + files[k..]) == Total(files) + f.lines[0].size
  {
    assert files == files[..k] + files[k..];
    TotalSum(files[..k], files[k..]);
    TotalSum(files[..k] + [f], files[k..]);
    TotalSum(files[..k], [f]);
    TotalOne(f);
    assert f.lines == [] + [f.lines[0]];
    SizeWith([], f.lines[0]);
  }

  // ---------------------------------------------------------------- the spool

  lemma WithoutMembers(files: seq<File>, k: nat)
    requires Sorted(files) && k < |files|
    ensures forall f :: f in Without(files, k) <==> f in files && f.name != files[k].name
  {
    var rest := Without(files, k);
    assert forall i :: 0 <= i < |rest| ==> rest[i] == files[if i < k then i else i + 1];
    forall f | f in files && f.name != files[k].name ensures f in rest {
      var i :| 0 <= i < |files| && files[i] == f;
      assert rest[if i < k then i else i - 1] == f;
    }
  }

  lemma RenamedMembers(files: seq<File>, k: nat, kind: Kind)
    requires Sorted(files) && k < |files|
    ensures var out := files[k := files[k].(kind := kind)];
      forall f :: f in out <==> (f in files && f.name != files[k].name) || f == files[k].(kind := kind)
  {
    var out := files[k := files[k].(kind := kind)];
    forall f | f in files && f.name != files[k].name ensures f in out {
      var i :| 0 <= i < |files| && files[i] == f;
      assert out[i] == f;
    }
    assert out[k] in out;
  }

  lemma RenameOk(files: seq<File>, current: map<Destination, Name>, currentSize: map<Destination, nat>, active: set<Name>,
                 used: Owners, k: nat, kind: Kind)
    requires OpenOk(files, current, currentSize, active) && UsedOk(files, active, used)
    requires k < |files| && files[k].name !in active
    ensures var out := files[k := files[k].(kind := kind)];
      OpenOk(out, current, currentSize, active) && UsedOk(out, active, used)
  {
    var out := files[k := files[k].(kind := kind)];
    assert files[k] in files;
    forall d | d in current ensures current[d] != files[k].name {
      assert current[d] in active;
    }
    forall d | d in current && (forall i :: 0 <= i < |out| ==> out[i].name != current[d]) ensures currentSize[d] == 0 {
      forall i | 0 <= i < |files| ensures files[i].name != current[d] {
        assert out[i].name == files[i].name;
      }
    }
  }

  /** Where the file is, or where it goes. */
  method Locate(files: seq<File>, name: Name) returns (found: bool, k: nat)
    requires Sorted(files)
    ensures found ==> k < |files| && files[k].name == name
    ensures !found ==> k <= |files| && (forall i :: 0 <= i < k ==> files[i].name < name)
                       && (forall i :: k <= i < |files| ==> name < files[i].name)
  {
    k := 0;
    while k < |files| && files[k].name < name
      invariant 0 <= k <= |files|
      invariant forall i :: 0 <= i < k ==> files[i].name < name
    {
      k := k + 1;
    }
    found := k < |files| && files[k].name == name;
  }

  lemma WriteOk(files: seq<File>, current: map<Destination, Name>, currentSize: map<Destination, nat>, active: set<Name>,
                used: Owners, d: Destination, k: nat, line: Line)
    requires OpenOk(files, current, currentSize, active) && UsedOk(files, active, used) && Sorted(files)
    requires d in current && d in currentSize && k < |files| && files[k].name == current[d]
    ensures var out := files[k := files[k].(lines := files[k].lines + [line])];
      OpenOk(out, current, currentSize[d := currentSize[d] + line.size], active) && UsedOk(out, active, used)
  {
    hide UsedOk;
    WriteNames(current, currentSize, active, d, currentSize[d] + line.size);
    WriteSizes(files, current, currentSize, active, d, k, line);
    WriteAbsent(files, current, currentSize, d, k, line);
    WriteUsed(files, active, used, k, line);
    hide NamesOk, SizesOk, AbsentOk, Sorted;
  }

  lemma WriteNames(current: map<Destination, Name>, currentSize: map<Destination, nat>, active: set<Name>, d: Destination, size: nat)
    requires NamesOk(current, currentSize, active) && d in current
    ensures NamesOk(current, currentSize[d := size], active)
  {
  }

  lemma WriteUsed(files: seq<File>, active: set<Name>, used: Owners, k: nat, line: Line)
    requires UsedOk(files, active, used) && k < |files|
    ensures UsedOk(files[k := files[k].(lines := files[k].lines + [line])], active, used)
  {
    assert files[k] in files;
  }

  lemma WriteSizes(files: seq<File>, current: map<Destination, Name>, currentSize: map<Destination, nat>, active: set<Name>,
                   d: Destination, k: nat, line: Line)
    requires NamesOk(current, currentSize, active) && SizesOk(files, current, currentSize) && Sorted(files)
    requires d in current && k < |files| && files[k].name == current[d]
    ensures SizesOk(files[k := files[k].(lines := files[k].lines + [line])], current, currentSize[d := currentSize[d] + line.size])
  {
    var out, sizes := files[k := files[k].(lines := files[k].lines + [line])], currentSize[d := currentSize[d] + line.size];
    SizeWith(files[k].lines, line);
    hide Size;
    forall i, e | 0 <= i < |out| && e in current && out[i].name == current[e]
      ensures out[i].owner == e && out[i].kind.Segment? && Size(out[i].lines) == sizes[e]
    {
      assert files[i].name == current[e] && files[i].owner == e && Size(files[i].lines) == currentSize[e];
      if i == k {
        assert e == d;
      } else {
        assert files[i].name != files[k].name;
      }
    }
  }

  lemma WriteAbsent(files: seq<File>, current: map<Destination, Name>, currentSize: map<Destination, nat>, d: Destination, k: nat, line: Line)
    requires current.Keys == currentSize.Keys && AbsentOk(files, current, currentSize)
    requires d in current && k < |files| && files[k].name == current[d]
    ensures AbsentOk(files[k := files[k].(lines := files[k].lines + [line])], current, currentSize[d := currentSize[d] + line.size])
  {
    var out := files[k := files[k].(lines := files[k].lines + [line])];
    assert out[k].name == current[d];
    forall e | e in current && (forall i :: 0 <= i < |out| ==> out[i].name != current[e]) ensures currentSize[e] == 0 && e != d {
      forall i | 0 <= i < |files| ensures files[i].name != current[e] {
        assert out[i].name == files[i].name;
      }
    }
  }

  lemma CreateOk(files: seq<File>, current: map<Destination, Name>, currentSize: map<Destination, nat>, active: set<Name>,
                 used: Owners, d: Destination, k: nat, f: File)
    requires OpenOk(files, current, currentSize, active) && UsedOk(files, active, used)
    requires d in current && d in currentSize && f.name == current[d] && f.owner == d && f.name in active && f.kind.Segment? && |f.lines| == 1
    requires used[f.name] == d
    requires k <= |files| && forall i :: 0 <= i < |files| ==> files[i].name != f.name
    ensures var out := files[..k] + [f] + files[k..];
      OpenOk(out, current, currentSize[d := currentSize[d] + f.lines[0].size], active) && UsedOk(out, active, used)
  {
    hide UsedOk;
    WriteNames(current, currentSize, active, d, currentSize[d] + f.lines[0].size);
    assert currentSize[d] == 0;
    CreateSizes(files, current, currentSize, active, d, k, f);
    CreateAbsent(files, current, currentSize, d, k, f);
    CreateUsed(files, active, used, k, f);
    hide NamesOk, SizesOk, AbsentOk;
  }

  lemma CreateUsed(files: seq<File>, active: set<Name>, used: Owners, k: nat, f: File)
    requires UsedOk(files, active, used) && k <= |files| && f.name in active && used[f.name] == f.owner
    ensures UsedOk(files[..k] + [f] + files[k..], active, used)
  {
  }

  lemma CreateSizes(files: seq<File>, current: map<Destination, Name>, currentSize: map<Destination, nat>, active: set<Name>,
                    d: Destination, k: nat, f: File)
    requires NamesOk(current, currentSize, active) && SizesOk(files, current, currentSize)
    requires d in current && f.name == current[d] && f.owner == d && f.kind.Segment? && |f.lines| == 1 && currentSize[d] == 0
    requires k <= |files| && forall i :: 0 <= i < |files| ==> files[i].name != f.name
    ensures SizesOk(files[..k] + [f] + files[k..], current, currentSize[d := currentSize[d] + f.lines[0].size])
  {
    var out := files[..k] + [f] + files[k..];
    assert forall i :: 0 <= i < |out| ==> out[i] == if i < k then files[i] else if i == k then f else files[i - 1];
    assert f.lines == [] + [f.lines[0]];
    SizeWith([], f.lines[0]);
    assert Size(f.lines) == f.lines[0].size;
    hide Size;
  }

  lemma CreateAbsent(files: seq<File>, current: map<Destination, Name>, currentSize: map<Destination, nat>, d: Destination, k: nat, f: File)
    requires current.Keys == currentSize.Keys && AbsentOk(files, current, currentSize)
    requires d in current && f.name == current[d] && |f.lines| == 1 && k <= |files|
    ensures AbsentOk(files[..k] + [f] + files[k..], current, currentSize[d := currentSize[d] + f.lines[0].size])
  {
    var out := files[..k] + [f] + files[k..];
    assert out[k].name == current[d];
    forall e | e in current && (forall i :: 0 <= i < |out| ==> out[i].name != current[e]) ensures currentSize[e] == 0 && e != d {
      forall i | 0 <= i < |files| ensures files[i].name != current[e] {
        assert out[if i < k then i else i + 1].name == files[i].name;
      }
    }
  }

  ghost predicate NamesOk(current: map<Destination, Name>, currentSize: map<Destination, nat>, active: set<Name>) {
    && current.Keys == currentSize.Keys
    && (forall n :: n in active <==> exists d :: d in current && current[d] == n)
    && (forall d, e :: d in current && e in current && current[d] == current[e] ==> d == e)
  }

  ghost predicate SizesOk(files: seq<File>, current: map<Destination, Name>, currentSize: map<Destination, nat>)
    requires current.Keys == currentSize.Keys
  {
    forall i, d :: 0 <= i < |files| && d in current && files[i].name == current[d] ==>
      files[i].owner == d && files[i].kind.Segment? && Size(files[i].lines) == currentSize[d]
  }

  ghost predicate AbsentOk(files: seq<File>, current: map<Destination, Name>, currentSize: map<Destination, nat>)
    requires current.Keys == currentSize.Keys
  {
    forall d :: d in current && (forall i :: 0 <= i < |files| ==> files[i].name != current[d]) ==> currentSize[d] == 0
  }

  /** An open segment belongs to one destination and is still a plain segment, of known size. */
  ghost predicate OpenOk(files: seq<File>, current: map<Destination, Name>, currentSize: map<Destination, nat>, active: set<Name>) {
    NamesOk(current, currentSize, active) && SizesOk(files, current, currentSize) && AbsentOk(files, current, currentSize)
  }

  ghost predicate OwnersOk(current: map<Destination, Name>, used: Owners) {
    forall d :: d in current ==> current[d] in used && used[current[d]] == d
  }

  ghost predicate UsedOk(files: seq<File>, active: set<Name>, used: Owners) {
    active <= used.Keys && forall f :: f in files ==> f.name in used && used[f.name] == f.owner
  }


  lemma SizeKnown(files: seq<File>, current: map<Destination, Name>, currentSize: map<Destination, nat>, active: set<Name>, d: Destination)
    requires OpenOk(files, current, currentSize, active) && d in current
    ensures d in currentSize && current[d] in active
  {
  }

  lemma CloseOk(files: seq<File>, current: map<Destination, Name>, currentSize: map<Destination, nat>, active: set<Name>,
                used: Owners, d: Destination)
    requires OpenOk(files, current, currentSize, active) && UsedOk(files, active, used) && d in current
    ensures OpenOk(files, current - {d}, currentSize - {d}, active - {current[d]})
    ensures UsedOk(files, active - {current[d]}, used)
  {
    var rest := current - {d};
    forall n ensures n in active - {current[d]} <==> exists e :: e in rest && rest[e] == n {
      if n in active - {current[d]} {
        var e :| e in current && current[e] == n;
        assert e in rest;
      }
    }
  }

  lemma OpensOk(files: seq<File>, current: map<Destination, Name>, currentSize: map<Destination, nat>, active: set<Name>,
                used: Owners, d: Destination, name: Name)
    requires OpenOk(files, current, currentSize, active) && UsedOk(files, active, used) && d !in current && name !in used
    ensures OpenOk(files, current[d := name], currentSize[d := 0], active + {name})
    ensures UsedOk(files, active + {name}, used[name := d])
  {
    var next := current[d := name];
    forall n ensures n in active + {name} <==> exists e :: e in next && next[e] == n {
      if n in active {
        var e :| e in current && current[e] == n;
        assert e in next && next[e] == n;
      }
      if n == name { assert d in next && next[d] == n; }
    }
    forall e | e in current ensures current[e] in active {
    }
    forall i | 0 <= i < |files| ensures files[i].name != name {
      assert files[i] in files;
    }
  }

  lemma RemoveOk(files: seq<File>, current: map<Destination, Name>, currentSize: map<Destination, nat>, active: set<Name>,
                 used: Owners, k: nat)
    requires OpenOk(files, current, currentSize, active) && UsedOk(files, active, used)
    requires k < |files| && files[k].name !in active
    ensures OpenOk(Without(files, k), current, currentSize, active) && UsedOk(Without(files, k), active, used)
  {
    var rest := Without(files, k);
    assert forall i :: 0 <= i < |rest| ==> rest[i] == files[if i < k then i else i + 1];
    forall d | d in current && (forall i :: 0 <= i < |rest| ==> rest[i].name != current[d]) ensures currentSize[d] == 0 {
      assert current[d] in active;
      forall i | 0 <= i < |files| ensures files[i].name != current[d] {
        if i != k { assert rest[if i < k then i else i - 1] == files[i]; }
      }
    }
  }
}

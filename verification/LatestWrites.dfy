/** Fields won by their newest writer: `_set_latest`, `merge_attributes` and `gated_attr_merge`.

    A value map and a map of write keys are a last-writer-wins register per field.  What they hold is
    described against the set of all writes ever offered, which is why arrival order, repetition and
    batching cannot show.
 */
module LatestWrites {
  import opened Keys

  /** Columns and attributes that `field_at` and `attr_at` guard. */
  datatype Field =
    | Branch | JobName | ServiceName | Environment
    | DurationMs | Trigger
    | FreshnessSla
    | Attribute(name: string)

  /** A JSON scalar. */
  datatype Value = Null | Text(text: string) | Number(number: real)

  /** Not written: `None` or the empty string. */
  predicate Empty(v: Value) {
    v == Null || v == Text("")
  }

  type Values = map<Field, Value>
  type WriteKeys = map<Field, Key>

  /** One event writes `value` to `field` at its fold-order position. */
  datatype Write = Write(key: Key, field: Field, value: Value)

  /** One position writes a field once. */
  ghost predicate Consistent(h: set<Write>) {
    forall u, v :: u in h && v in h && u.key == v.key && u.field == v.field ==> u == v
  }

  /** Exactly the fields some write names are present, each with its newest value and key. */
  ghost predicate Latest(values: Values, at: WriteKeys, h: set<Write>) {
    && values.Keys == at.Keys
    && (forall f :: f in at ==> Write(at[f], f, values[f]) in h)
    && (forall w :: w in h ==> w.field in at && AtMost(w.key, at[w.field]))
  }

  /** The newest-writer state of a set of writes is unique. */
  lemma LatestUnique(v: Values, a: WriteKeys, w: Values, b: WriteKeys, h: set<Write>)
    requires Consistent(h)
    requires Latest(v, a, h) && Latest(w, b, h)
    ensures v == w && a == b
  {
    forall f ensures f in a <==> f in b {
      if f in a { assert Write(a[f], f, v[f]).field in b; }
      if f in b { assert Write(b[f], f, w[f]).field in a; }
    }
    forall f | f in a ensures a[f] == b[f] && v[f] == w[f] {
      var x, y := Write(a[f], f, v[f]), Write(b[f], f, w[f]);
      assert AtMost(x.key, b[f]) && AtMost(y.key, a[f]);
      assert x == y;
    }
  }

  // ---------------------------------------------------------------- one field

  /** `_set_latest`, once the value is known not to be empty: the write wins when its key is at or after
      the key that last wrote the field. */
  method SetLatest(values: Values, at: WriteKeys, f: Field, v: Value, key: Key)
      returns (newValues: Values, newAt: WriteKeys)
    ensures forall h :: Latest(values, at, h) ==> Latest(newValues, newAt, h + {Write(key, f, v)})
    ensures forall g :: g != f ==> (g in newValues <==> g in values) && (g in newValues && g in values ==> newValues[g] == values[g])
  {
    newValues, newAt := values, at;
    if f !in at || AtMost(at[f], key) {
      newValues, newAt := values[f := v], at[f := key];
    }
  }

  // ---------------------------------------------------------------- merging two registers

  /** The field's recorded write key, or the legacy gate for a value stored without one. */
  function WriteKey(values: Values, at: WriteKeys, f: Field, legacyGate: Option<Key>): Option<Key> {
    if f in at then Some(at[f]) else if f in values then legacyGate else None
  }

  predicate Wins(values: Values, at: WriteKeys, newAt: WriteKeys, f: Field, gate: Option<Key>) {
    var current := WriteKey(values, at, f, gate);
    f in newAt && (current.None? || AtMost(current.value, newAt[f]))
  }

  /** The fields an incoming register wins. */
  ghost function Won(values: Values, at: WriteKeys, newValues: Values, newAt: WriteKeys, gate: Option<Key>): set<Field> {
    set f | f in newValues && Wins(values, at, newAt, f, gate)
  }

  /** `v` is `values` with the fields of `won` replaced from `newValues`. */
  ghost predicate Overlay(v: Values, values: Values, newValues: Values, won: set<Field>) {
    && v.Keys == values.Keys + won
    && won <= newValues.Keys
    && forall f :: f in v ==> v[f] == if f in won then newValues[f] else values[f]
  }

  ghost predicate OverlayKeys(a: WriteKeys, at: WriteKeys, newAt: WriteKeys, won: set<Field>) {
    && a.Keys == at.Keys + won
    && won <= newAt.Keys
    && forall f :: f in a ==> a[f] == if f in won then newAt[f] else at[f]
  }

  /** `gated_attr_merge`: field by field, the incoming value replaces the stored one when its key is at
      or after the stored key. */
  method GatedMerge(values: Values, at: WriteKeys, newValues: Values, newAt: WriteKeys, gate: Option<Key>)
      returns (v: Values, a: WriteKeys)
    ensures Overlay(v, values, newValues, Won(values, at, newValues, newAt, gate))
    ensures OverlayKeys(a, at, newAt, Won(values, at, newValues, newAt, gate))
  {
    hide Overlay, OverlayKeys, Won, WriteKey;
    v, a := values, at;
    var names := newValues.Keys;
    ghost var won := Won(values, at, newValues, newAt, gate);
    OverlayNothing(values, at, newValues, newAt, gate);
    while names != {}
      invariant names <= newValues.Keys
      invariant Overlay(v, values, newValues, won - names) && OverlayKeys(a, at, newAt, won - names)
      decreases |names|
    {
      var f :| f in names;
      OverlayOutside(v, values, newValues, a, at, newAt, gate, won - names, f);
      if Wins(v, a, newAt, f, gate) {
        assert won - (names - {f}) == (won - names) + {f};
        OverlayWith(v, values, newValues, a, at, newAt, won - names, f);
        v, a := v[f := newValues[f]], a[f := newAt[f]];
      } else {
        assert won - (names - {f}) == won - names;
      }
      names := names - {f};
    }
    assert won - {} == won;
  }

  lemma OverlayOutside(v: Values, values: Values, newValues: Values, a: WriteKeys, at: WriteKeys, newAt: WriteKeys,
                       gate: Option<Key>, won: set<Field>, f: Field)
    requires Overlay(v, values, newValues, won) && OverlayKeys(a, at, newAt, won) && f !in won && f in newValues
    ensures Wins(v, a, newAt, f, gate) <==> f in Won(values, at, newValues, newAt, gate)
  {
  }

  lemma OverlayNothing(values: Values, at: WriteKeys, newValues: Values, newAt: WriteKeys, gate: Option<Key>)
    ensures var none := Won(values, at, newValues, newAt, gate) - newValues.Keys;
      Overlay(values, values, newValues, none) && OverlayKeys(at, at, newAt, none)
  {
  }

  lemma OverlayWith(v: Values, values: Values, newValues: Values, a: WriteKeys, at: WriteKeys, newAt: WriteKeys,
                    won: set<Field>, f: Field)
    requires Overlay(v, values, newValues, won) && OverlayKeys(a, at, newAt, won)
    requires f in newValues && f in newAt
    ensures Overlay(v[f := newValues[f]], values, newValues, won + {f})
    ensures OverlayKeys(a[f := newAt[f]], at, newAt, won + {f})
  {
    assert v[f := newValues[f]].Keys == values.Keys + (won + {f});
    assert a[f := newAt[f]].Keys == at.Keys + (won + {f});
  }

  /** Merging registers is taking the union of what was offered to them: commutative, associative and
      idempotent, whatever the split into batches. */
  lemma MergeIsLatest(values: Values, at: WriteKeys, newValues: Values, newAt: WriteKeys, gate: Option<Key>,
                      v: Values, a: WriteKeys, h: set<Write>, g: set<Write>)
    requires Latest(values, at, h) && Latest(newValues, newAt, g)
    requires Overlay(v, values, newValues, Won(values, at, newValues, newAt, gate))
    requires OverlayKeys(a, at, newAt, Won(values, at, newValues, newAt, gate))
    ensures Latest(v, a, h + g)
  {
    var won := Won(values, at, newValues, newAt, gate);
    assert forall f :: f in newAt ==> f in newValues && (f in won <==> f !in at || AtMost(at[f], newAt[f]));
    OverlayIsLatest(values, at, newValues, newAt, v, a, won, h, g);
  }

  lemma OverlayIsLatest(values: Values, at: WriteKeys, newValues: Values, newAt: WriteKeys,
                        v: Values, a: WriteKeys, won: set<Field>, h: set<Write>, g: set<Write>)
    requires Latest(values, at, h) && Latest(newValues, newAt, g)
    requires Overlay(v, values, newValues, won) && OverlayKeys(a, at, newAt, won)
    requires forall f :: f in newAt ==> (f in won <==> f !in at || AtMost(at[f], newAt[f]))
    ensures Latest(v, a, h + g)
  {
    forall w | w in h + g ensures w.field in a && AtMost(w.key, a[w.field]) {
      if w in h { assert w.field in at && AtMost(w.key, at[w.field]); }
    }
    forall f | f in a ensures Write(a[f], f, v[f]) in h + g {
      if f !in won { assert Write(at[f], f, values[f]) in h; }
    }
  }
}

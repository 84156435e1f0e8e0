/** Secret redaction over normalized values: `normalize_value`, `_redact` and the cached key verdict. */
module Redaction {
  import opened Keys

  /** Normalized, JSON-safe values.  An object's entries are a list, in dictionary order. */
  datatype Json =
    | Null
    | Bool(b: bool)
    | Num(x: real)
    | Str(s: string)
    | Arr(items: seq<Json>)
    | Obj(fields: seq<Field>)

  datatype Field = Field(name: string, value: Json)

  /** `REDACTED`. */
  const MARKER := "[REDACTED]"

  type Path = seq<string>

  // ---------------------------------------------------------------- normalization

  /** What `normalize_value` tells apart among arbitrary values. */
  datatype Raw =
    | Scalar(json: Json)
    | NotFinite
    | Printed(text: string)
    | Enumerated(inner: Raw)
    | Bytes(utf8: Option<string>, base64: string)
    | Tabular(kind: string, columns: seq<string>)
    | Model(dump: Raw)
    | Mapping(entries: seq<RawField>)
    | Sequence(elements: seq<Raw>)
    | Opaque(kind: string)

  datatype RawField = RawField(key: string, value: Raw)

  predicate IsLeaf(j: Json) {
    !j.Arr? && !j.Obj?
  }

  function Strings(texts: seq<string>): (r: seq<Json>)
    ensures |r| == |texts| && forall i :: 0 <= i < |r| ==> r[i] == Str(texts[i])
  {
    seq(|texts|, i requires 0 <= i < |texts| => Str(texts[i]))
  }

  /** `normalize_value`. */
  function Normalize(v: Raw, max: nat, depth: nat): Json
    decreases v
  {
    match v
    case Scalar(j) => if IsLeaf(j) then j else Null
    case NotFinite => Null
    case Printed(text) => Str(text)
    case Enumerated(inner) => Normalize(inner, max, depth + 1)
    case Bytes(utf8, base64) => if utf8.Some? then Str(utf8.value) else Obj([Field("_observe_b64", Str(base64))])
    case Tabular(_, _) => if depth >= max then Truncated() else Summary(v.kind, v.columns)
    case Model(dump) => if depth >= max then Truncated() else Normalize(dump, max, depth + 1)
    case Mapping(entries) =>
      if depth >= max then Truncated()
      else Obj(seq(|entries|, i requires 0 <= i < |entries| => Field(entries[i].key, Normalize(entries[i].value, max, depth + 1))))
    case Sequence(elements) =>
      if depth >= max then Truncated()
      else Arr(seq(|elements|, i requires 0 <= i < |elements| => Normalize(elements[i], max, depth + 1)))
    case Opaque(kind) => if depth >= max then Truncated() else Obj([Field("_observe_unserializable", Str(kind))])
  }

  function Truncated(): Json {
    Obj([Field("_observe_truncated", Str("max_depth exceeded"))])
  }

  function Summary(kind: string, columns: seq<string>): Json {
    Obj([Field("_observe_summary", Str("tabular")), Field("type", Str(kind)), Field("column_names", Arr(Strings(columns)))])
  }

  /** Containers nested at most `n` deep. */
  predicate Fits(j: Json, n: nat)
    decreases j
  {
    match j
    case Arr(items) => n > 0 && forall i :: 0 <= i < |items| ==> Fits(items[i], n - 1)
    case Obj(fields) => n > 0 && forall i :: 0 <= i < |fields| ==> Fits(fields[i].value, n - 1)
    case _ => true
  }

  lemma {:induction false} FitsMore(j: Json, n: nat, m: nat)
    requires Fits(j, n) && n <= m
    ensures Fits(j, m)
    decreases j
  {
    match j
    case Arr(items) =>
      forall i | 0 <= i < |items| ensures Fits(items[i], m - 1) { FitsMore(items[i], n - 1, m - 1); }
    case Obj(fields) =>
      forall i | 0 <= i < |fields| ensures Fits(fields[i].value, m - 1) { FitsMore(fields[i].value, n - 1, m - 1); }
    case _ =>
  }

  /** Normalization with bound `max` leaves at most `max + 1` levels of containers. */
  lemma {:induction false} NormalizedFits(v: Raw, max: nat, depth: nat)
    ensures Fits(Normalize(v, max, depth), if depth <= max then max + 1 - depth else 1)
    decreases v
  {
    match v
    case Enumerated(inner) =>
      NormalizedFits(inner, max, depth + 1);
      FitsMore(Normalize(inner, max, depth + 1), if depth + 1 <= max then max - depth else 1, if depth <= max then max + 1 - depth else 1);
    case Model(dump) =>
      if depth < max {
        NormalizedFits(dump, max, depth + 1);
        FitsMore(Normalize(dump, max, depth + 1), max - depth, max + 1 - depth);
      }
    case Mapping(entries) =>
      if depth < max {
        forall i | 0 <= i < |entries| ensures Fits(Normalize(entries[i].value, max, depth + 1), max - depth) {
          NormalizedFits(entries[i].value, max, depth + 1);
        }
      }
    case Sequence(elements) =>
      if depth < max {
        forall i | 0 <= i < |elements| ensures Fits(Normalize(elements[i], max, depth + 1), max - depth) {
          NormalizedFits(elements[i], max, depth + 1);
        }
      }
    case Tabular(kind, columns) =>
      if depth < max { SummaryFits(kind, columns, max + 1 - depth); }
    case _ =>
  }

  lemma SummaryFits(kind: string, columns: seq<string>, n: nat)
    requires n >= 2
    ensures Fits(Summary(kind, columns), n)
  {
    var fields := Summary(kind, columns).fields;
    forall i | 0 <= i < |fields| ensures Fits(fields[i].value, n - 1) {
    }
  }

  // ---------------------------------------------------------------- key rules

  /** The configured rules; `lower`, `segments` and the regular expressions are any functions. */
  datatype Rules = Rules(
    lower: string -> string,
    segments: string -> seq<string>,
    keyRegex: string -> bool,
    valueRegex: string -> bool,
    exact: set<string>,
    patterns: seq<seq<string>>,
    paths: seq<Path>,
    maxDepth: nat)

  /** `pattern` occurs as a consecutive run within `segments`. */
  predicate Occurs(pattern: seq<string>, segments: seq<string>) {
    exists i :: 0 <= i <= |segments| && OccursAt(pattern, segments, i)
  }

  predicate OccursAt(pattern: seq<string>, segments: seq<string>, i: nat) {
    i + |pattern| <= |segments| && segments[i..i + |pattern|] == pattern
  }

  /** What the key rules mean, path rules aside. */
  predicate KeyRule(rules: Rules, key: string) {
    || rules.lower(key) in rules.exact
    || (exists p :: p in rules.patterns && Occurs(p, rules.segments(key)))
    || rules.keyRegex(key)
  }

  /** `_key_hit_uncached`: single-segment patterns by set intersection, the others only when their first
      segment is present. */
  predicate KeyHitUncached(rules: Rules, key: string) {
    var segments := rules.segments(key);
    || rules.lower(key) in rules.exact
    || (exists p :: p in rules.patterns && |p| == 1 && p[0] in segments)
    || (exists p :: p in rules.patterns && |p| > 1 && p[0] in segments && Occurs(p, segments))
    || rules.keyRegex(key)
  }

  /** The fast checks decide exactly the rule, when every pattern has a segment. */
  lemma FastKeyCheck(rules: Rules, key: string)
    requires forall p :: p in rules.patterns ==> p != []
    ensures KeyHitUncached(rules, key) <==> KeyRule(rules, key)
    ensures rules.lower(key) in rules.exact || rules.keyRegex(key) ==> KeyHitUncached(rules, key)
    ensures KeyHitUncached(rules, key) ==>
      || rules.lower(key) in rules.exact || rules.keyRegex(key)
      || exists p :: p in rules.patterns && Occurs(p, rules.segments(key))
  {
    var segments := rules.segments(key);
    forall p | p in rules.patterns ensures Occurs(p, segments) ==> p[0] in segments {
      if Occurs(p, segments) {
        var i :| 0 <= i <= |segments| && OccursAt(p, segments, i);
        assert segments[i] == segments[i..i + |p|][0];
      }
    }
    forall p | p in rules.patterns && |p| == 1 && p[0] in segments ensures Occurs(p, segments) {
      var i :| 0 <= i < |segments| && segments[i] == p[0];
      assert OccursAt(p, segments, i);
    }
  }

  function Join(path: Path): string {
    if path == [] then "" else if |path| == 1 then path[0] else Join(path[..|path| - 1]) + "." + path[|path| - 1]
  }

  predicate EndsWith(s: string, t: string) {
    |t| <= |s| && s[|s| - |t|..] == t
  }

  /** A dotted-path rule applies to the entry `key` below `path`. */
  predicate PathHit(rules: Rules, key: string, path: Path) {
    var dotted := Join(path + [key]);
    exists rule :: rule in rules.paths && (dotted == Join(rule) || EndsWith(dotted, "." + Join(rule)))
  }

  predicate KeyHit(rules: Rules, key: string, path: Path) {
    KeyHitUncached(rules, key) || PathHit(rules, key, path)
  }

  /** `_key_cache`, bounded. */
  const MAX_CACHE := 4096

  class Redactor {
    const rules: Rules
    var cache: map<string, bool>

    constructor (rules: Rules)
      ensures this.rules == rules && Valid()
    {
      this.rules, cache := rules, map[];
    }

    /** Cached verdicts are those of the uncached check. */
    ghost predicate Valid()
      reads this
    {
      |cache| <= MAX_CACHE && forall key :: key in cache ==> cache[key] == KeyHitUncached(rules, key)
    }

    /** `_key_hit`. */
    method CachedKeyHit(key: string, path: Path) returns (hit: bool)
      requires Valid()
      modifies `cache
      ensures Valid() && hit == KeyHit(rules, key, path)
    {
      hide KeyHitUncached, PathHit;
      if key in cache {
        hit := cache[key];
      } else {
        hit := KeyHitUncached(rules, key);
        if |cache| < MAX_CACHE {
          assert cache[key := hit].Keys == cache.Keys + {key};
          cache := cache[key := hit];
        }
      }
      if !hit {
        hit := PathHit(rules, key, path);
      }
    }
  }

  // ---------------------------------------------------------------- redaction

  predicate TextHit(rules: Rules, j: Json) {
    j.Str? && rules.valueRegex(j.s)
  }

  /** `_redact` at `depth` below `path`. */
  function Redact(rules: Rules, j: Json, path: Path, depth: nat): Json
    decreases j
  {
    if depth > rules.maxDepth then j
    else
      match j
      case Obj(fields) =>
        Obj(seq(|fields|, i requires 0 <= i < |fields| =>
          Field(fields[i].name,
                if KeyHit(rules, fields[i].name, path) || TextHit(rules, fields[i].value) then Str(MARKER)
                else Redact(rules, fields[i].value, path + [fields[i].name], depth + 1))))
      case Arr(items) =>
        Arr(seq(|items|, i requires 0 <= i < |items| =>
          if TextHit(rules, items[i]) then Str(MARKER) else Redact(rules, items[i], path, depth + 1)))
      case _ => j
  }

  /** No entry below `path` has a matching key or path, and no string anywhere, the root included, matches,
      unless it is the marker. */
  ghost predicate Clean(rules: Rules, j: Json, path: Path)
    decreases j
  {
    match j
    case Obj(fields) => forall i :: 0 <= i < |fields| ==>
      || fields[i].value == Str(MARKER)
      || (!KeyHit(rules, fields[i].name, path) && Clean(rules, fields[i].value, path + [fields[i].name]))
    case Arr(items) => forall i :: 0 <= i < |items| ==> Clean(rules, items[i], path)
    case Str(s) => s == MARKER || !rules.valueRegex(s)
    case _ => true
  }

  /** A string by itself is handed back as it is, whatever it holds: only entries and items are replaced. */
  predicate Exposed(rules: Rules, j: Json) {
    TextHit(rules, j) && j != Str(MARKER)
  }

  /** Within the depth budget, redaction leaves nothing that matches, at any depth, if and only if the value
      is not itself a matching string. */
  lemma {:induction false} RedactCleans(rules: Rules, j: Json, path: Path, depth: nat)
    requires depth <= rules.maxDepth + 1 && Fits(j, rules.maxDepth + 1 - depth)
    ensures Clean(rules, Redact(rules, j, path, depth), path) <==> !Exposed(rules, j)
    decreases j
  {
    hide KeyHit;
    match j
    case Obj(fields) =>
      forall i | 0 <= i < |fields| && !TextHit(rules, fields[i].value)
        ensures Clean(rules, Redact(rules, fields[i].value, path + [fields[i].name], depth + 1), path + [fields[i].name])
      {
        RedactCleans(rules, fields[i].value, path + [fields[i].name], depth + 1);
      }
    case Arr(items) =>
      forall i | 0 <= i < |items| && !TextHit(rules, items[i])
        ensures Clean(rules, Redact(rules, items[i], path, depth + 1), path)
      {
        RedactCleans(rules, items[i], path, depth + 1);
      }
    case _ =>
  }

  lemma TextUnchanged(rules: Rules, j: Json, path: Path, depth: nat)
    ensures Redact(rules, j, path, depth).Str? <==> j.Str?
    ensures j.Str? ==> Redact(rules, j, path, depth) == j
  {
  }

  /** Redaction covers everything normalization can produce with the same bound, if and only if the value
      does not normalize to a matching string. */
  lemma NormalizedIsCovered(rules: Rules, v: Raw, path: Path)
    ensures Clean(rules, Redact(rules, Normalize(v, rules.maxDepth, 0), path, 0), path)
       <==> !Exposed(rules, Normalize(v, rules.maxDepth, 0))
  {
    NormalizedFits(v, rules.maxDepth, 0);
    RedactCleans(rules, Normalize(v, rules.maxDepth, 0), path, 0);
  }

  /** So a mapping or a list, which is what an event is made of, is always covered. */
  lemma ContainersAreCovered(rules: Rules, v: Raw, path: Path)
    requires v.Mapping? || v.Sequence? || v.Tabular? || v.Opaque?
    ensures Clean(rules, Redact(rules, Normalize(v, rules.maxDepth, 0), path, 0), path)
  {
    NormalizedIsCovered(rules, v, path);
  }

  /** A matching string on its own comes back unchanged. */
  lemma RootStringSurvives(rules: Rules, secret: string, path: Path)
    requires rules.valueRegex(secret) && secret != MARKER
    ensures var v := Scalar(Str(secret));
      && Redact(rules, Normalize(v, rules.maxDepth, 0), path, 0) == Str(secret)
      && !Clean(rules, Str(secret), path)
  {
  }

  /** What redaction may change: an entry or item becomes the marker exactly when it is a hit; everything
      else keeps its place, name, shape and leaves. */
  ghost predicate OnlyHitsMarked(rules: Rules, before: Json, after: Json, path: Path)
    decreases before
  {
    match before
    case Obj(fields) =>
      && after.Obj? && |after.fields| == |fields|
      && forall i :: 0 <= i < |fields| ==>
           && after.fields[i].name == fields[i].name
           && (if KeyHit(rules, fields[i].name, path) || TextHit(rules, fields[i].value) then after.fields[i].value == Str(MARKER)
               else OnlyHitsMarked(rules, fields[i].value, after.fields[i].value, path + [fields[i].name]))
    case Arr(items) =>
      && after.Arr? && |after.items| == |items|
      && forall i :: 0 <= i < |items| ==>
           (if TextHit(rules, items[i]) then after.items[i] == Str(MARKER)
            else OnlyHitsMarked(rules, items[i], after.items[i], path))
    case _ => after == before
  }

  lemma {:induction false} RedactMarksOnlyHits(rules: Rules, j: Json, path: Path, depth: nat)
    requires depth <= rules.maxDepth + 1 && Fits(j, rules.maxDepth + 1 - depth)
    ensures OnlyHitsMarked(rules, j, Redact(rules, j, path, depth), path)
    decreases j
  {
    hide KeyHit, TextHit;
    match j
    case Obj(fields) =>
      forall i | 0 <= i < |fields|
        ensures OnlyHitsMarked(rules, fields[i].value, Redact(rules, fields[i].value, path + [fields[i].name], depth + 1), path + [fields[i].name])
      {
        RedactMarksOnlyHits(rules, fields[i].value, path + [fields[i].name], depth + 1);
      }
    case Arr(items) =>
      forall i | 0 <= i < |items| ensures OnlyHitsMarked(rules, items[i], Redact(rules, items[i], path, depth + 1), path) {
        RedactMarksOnlyHits(rules, items[i], path, depth + 1);
      }
    case _ =>
  }

  lemma RedactField(rules: Rules, fields: seq<Field>, path: Path, depth: nat, i: nat)
    requires depth <= rules.maxDepth && i < |fields|
    ensures var r := Redact(rules, Obj(fields), path, depth);
      && r.Obj? && |r.fields| == |fields| && r.fields[i].name == fields[i].name
      && r.fields[i].value == (if KeyHit(rules, fields[i].name, path) || TextHit(rules, fields[i].value) then Str(MARKER)
                               else Redact(rules, fields[i].value, path + [fields[i].name], depth + 1))
  {
    hide KeyHit, TextHit;
  }

  lemma RedactItem(rules: Rules, items: seq<Json>, path: Path, depth: nat, i: nat)
    requires depth <= rules.maxDepth && i < |items|
    ensures var r := Redact(rules, Arr(items), path, depth);
      && r.Arr? && |r.items| == |items|
      && r.items[i] == (if TextHit(rules, items[i]) then Str(MARKER) else Redact(rules, items[i], path, depth + 1))
  {
    hide TextHit;
  }

  /** Redacting again changes nothing, within the budget or beyond it. */
  lemma {:induction false} RedactIdempotent(rules: Rules, j: Json, path: Path, depth: nat)
    ensures Redact(rules, Redact(rules, j, path, depth), path, depth) == Redact(rules, j, path, depth)
    decreases j
  {
    var once := Redact(rules, j, path, depth);
    var twice := Redact(rules, once, path, depth);
    hide KeyHit;
    if depth <= rules.maxDepth {
      match j
      case Obj(fields) =>
        forall i | 0 <= i < |fields| ensures twice.fields[i] == once.fields[i] {
          RedactIdempotent(rules, fields[i].value, path + [fields[i].name], depth + 1);
          TextUnchanged(rules, fields[i].value, path + [fields[i].name], depth + 1);
          TextUnchanged(rules, Str(MARKER), path + [fields[i].name], depth + 1);
          RedactField(rules, fields, path, depth, i);
          RedactField(rules, once.fields, path, depth, i);
        }
        assert twice.fields == once.fields;
      case Arr(items) =>
        forall i | 0 <= i < |items| ensures twice.items[i] == once.items[i] {
          RedactIdempotent(rules, items[i], path, depth + 1);
          TextUnchanged(rules, items[i], path, depth + 1);
          TextUnchanged(rules, Str(MARKER), path, depth + 1);
          RedactItem(rules, items, path, depth, i);
          RedactItem(rules, once.items, path, depth, i);
        }
        assert twice.items == once.items;
      case _ =>
    }
  }

  /** A container one level below the budget keeps its secrets: the bound of `RedactCleans` is exact. */
  lemma BeyondBudget(rules: Rules, name: string, secret: string, path: Path)
    requires KeyHitUncached(rules, name) && secret != MARKER
    ensures var j := Obj([Field(name, Str(secret))]);
      !Clean(rules, Redact(rules, j, path, rules.maxDepth + 1), path) && Fits(j, 1)
  {
    var j := Obj([Field(name, Str(secret))]);
    assert j.fields[0].value == Str(secret);
    assert KeyHit(rules, name, path);
    hide KeyHitUncached, PathHit;
  }
}

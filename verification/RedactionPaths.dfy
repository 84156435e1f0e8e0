/** What path rules do, in terms of segments: which entries of a value a dotted rule reaches, and which it leaves
    alone; and what normalization keeps of a value that is JSON already. */
module RedactionPaths {
  import opened Redaction

  predicate DotFree(s: string) {
    '.' !in s
  }

  /** `names` ends with the segments of `rule`. */
  predicate EndsWithRule(names: Path, rule: Path) {
    |rule| <= |names| && names[|names| - |rule|..] == rule
  }

  /** Some path rule ends at the entry `key` below `path`. */
  ghost predicate RuleReaches(rules: Rules, key: string, path: Path) {
    exists rule :: rule in rules.paths && EndsWithRule(path + [key], rule)
  }

  /** The configuration splits a dotted text into one or more segments. */
  ghost predicate RulesSplit(rules: Rules) {
    forall rule :: rule in rules.paths ==> rule != [] && forall s :: s in rule ==> DotFree(s)
  }

  // ---------------------------------------------------------------- joining with dots

  lemma {:induction false} JoinSum(a: Path, b: Path)
    requires a != [] && b != []
    ensures Join(a + b) == Join(a) + "." + Join(b)
  {
    var n := |b| - 1;
    assert (a + b)[..|a + b| - 1] == a + b[..n];
    if n == 0 {
      assert a + b[..n] == a;
      assert Join(b) == b[0];
    } else {
      JoinSum(a, b[..n]);
      assert Join(a + b) == Join(a + b[..n]) + "." + b[n];
      assert Join(b) == Join(b[..n]) + "." + b[n];
      assert Join(a) + "." + Join(b[..n]) + "." + b[n] == Join(a) + "." + (Join(b[..n]) + "." + b[n]);
    }
  }

  /** The text after the last dot. */
  lemma LastDot(a: string, x: string, b: string, y: string)
    requires DotFree(x) && DotFree(y) && a + "." + x == b + "." + y
    ensures a == b && x == y
  {
    var s := a + "." + x;
    assert s[|a|] == '.' && (b + "." + y)[|b|] == '.';
    forall i | |a| < i < |s| ensures s[i] != '.' {
      assert s[i] == x[i - |a| - 1];
    }
    forall i | |b| < i < |s| ensures s[i] != '.' {
      assert (b + "." + y)[i] == y[i - |b| - 1];
    }
    assert |a| == |b|;
    assert a == s[..|a|] && b == (b + "." + y)[..|b|];
    assert x == s[|a| + 1..] && y == (b + "." + y)[|b| + 1..];
  }

  lemma JoinLast(p: Path)
    requires |p| > 1
    ensures Join(p) == Join(p[..|p| - 1]) + "." + p[|p| - 1] && '.' in Join(p)
  {
    assert Join(p)[|Join(p[..|p| - 1])|] == '.';
  }

  /** Segments without dots can be read back from the joined text. */
  lemma {:induction false} JoinInjective(p: Path, q: Path)
    requires p != [] && q != [] && Join(p) == Join(q)
    requires (forall s :: s in p ==> DotFree(s)) && forall s :: s in q ==> DotFree(s)
    ensures p == q
  {
    assert p[0] in p && q[0] in q;
    if |p| == 1 || |q| == 1 {
      if |p| > 1 { JoinLast(p); }
      if |q| > 1 { JoinLast(q); }
    } else {
      JoinLast(p);
      JoinLast(q);
      var m, n := |p| - 1, |q| - 1;
      assert p[m] in p && q[n] in q;
      LastDot(Join(p[..m]), p[m], Join(q[..n]), q[n]);
      JoinInjective(p[..m], q[..n]);
      assert p == p[..m] + [p[m]] && q == q[..n] + [q[n]];
    }
  }

  /** A dotted suffix of the joined text is a list of whole segments. */
  lemma {:induction false} SuffixOfJoin(p: Path, rule: Path)
    requires p != [] && rule != [] && EndsWith(Join(p), "." + Join(rule))
    requires (forall s :: s in p ==> DotFree(s)) && forall s :: s in rule ==> DotFree(s)
    ensures EndsWithRule(p, rule)
    decreases |rule|
  {
    var m, n := |p| - 1, |rule| - 1;
    var front := SuffixFront(p, rule);
    assert p[m] in p && rule[n] in rule;
    JoinLast(p);
    if n == 0 {
      assert Join(rule) == rule[0];
      hide Join;
      LastDot(front, rule[0], Join(p[..m]), p[m]);
      assert p[m..] == rule;
    } else {
      JoinLast(rule);
      hide Join;
      LastDotAgain(front, Join(rule[..n]), rule[n], Join(p[..m]), p[m]);
      SuffixOfJoin(p[..m], rule[..n]);
      assert p[|p| - |rule|..] == p[..m][|p[..m]| - |rule[..n]|..] + [p[m]];
      assert rule == rule[..n] + [rule[n]];
    }
  }

  /** What precedes the suffix; there is more than one segment, as there is a dot. */
  lemma SuffixFront(p: Path, rule: Path) returns (front: string)
    requires p != [] && EndsWith(Join(p), "." + Join(rule)) && forall s :: s in p ==> DotFree(s)
    ensures |p| > 1 && Join(p) == front + "." + Join(rule)
  {
    var all, tail := Join(p), "." + Join(rule);
    front := all[..|all| - |tail|];
    assert all == front + tail;
    assert all[|front|] == '.';
    assert p[0] in p;
  }

  lemma LastDotAgain(front: string, mid: string, x: string, b: string, y: string)
    requires DotFree(x) && DotFree(y) && front + "." + (mid + "." + x) == b + "." + y
    ensures x == y && EndsWith(b, "." + mid)
  {
    var rest := front + "." + mid;
    assert rest + "." + x == b + "." + y;
    LastDot(rest, x, b, y);
    assert rest[|rest| - |"." + mid|..] == "." + mid;
  }

  /** A path rule applies to the entries that it reaches, segment by segment. */
  lemma PathHitMeans(rules: Rules, key: string, path: Path)
    requires RulesSplit(rules)
    ensures RuleReaches(rules, key, path) ==> PathHit(rules, key, path)
    ensures DotFree(key) && (forall s :: s in path ==> DotFree(s)) ==> (PathHit(rules, key, path) <==> RuleReaches(rules, key, path))
  {
    var full := path + [key];
    forall rule | rule in rules.paths && EndsWithRule(full, rule)
      ensures Join(full) == Join(rule) || EndsWith(Join(full), "." + Join(rule))
    {
      ReachedJoins(full, rule);
    }
    if DotFree(key) && (forall s :: s in path ==> DotFree(s)) && PathHit(rules, key, path) {
      var rule :| rule in rules.paths && (Join(full) == Join(rule) || EndsWith(Join(full), "." + Join(rule)));
      if Join(full) == Join(rule) {
        JoinInjective(full, rule);
      } else {
        SuffixOfJoin(full, rule);
      }
    }
  }

  lemma ReachedJoins(full: Path, rule: Path)
    requires rule != [] && EndsWithRule(full, rule)
    ensures Join(full) == Join(rule) || EndsWith(Join(full), "." + Join(rule))
  {
    var front := full[..|full| - |rule|];
    assert full == front + rule;
    if front != [] {
      JoinSum(front, rule);
      assert Join(full)[|Join(front)|..] == "." + Join(rule);
    }
  }

  // ---------------------------------------------------------------- what redaction leaves and marks

  /** No entry that a path rule reaches holds anything but the marker, at any depth. */
  ghost predicate PathsMarked(rules: Rules, j: Json, path: Path)
    decreases j
  {
    match j
    case Obj(fields) => forall i :: 0 <= i < |fields| ==>
      || fields[i].value == Str(MARKER)
      || (!RuleReaches(rules, fields[i].name, path) && PathsMarked(rules, fields[i].value, path + [fields[i].name]))
    case Arr(items) => forall i :: 0 <= i < |items| ==> PathsMarked(rules, items[i], path)
    case _ => true
  }

  /** Within the depth budget, redaction marks every entry that a path rule reaches. */
  lemma {:induction false} PathRulesApply(rules: Rules, j: Json, path: Path, depth: nat)
    requires RulesSplit(rules) && depth <= rules.maxDepth + 1 && Fits(j, rules.maxDepth + 1 - depth)
    ensures PathsMarked(rules, Redact(rules, j, path, depth), path)
    decreases j
  {
    hide KeyHit, RuleReaches, RulesSplit, TextHit;
    match j
    case Obj(fields) =>
      forall i | 0 <= i < |fields|
        ensures RuleReaches(rules, fields[i].name, path) ==> KeyHit(rules, fields[i].name, path)
        ensures PathsMarked(rules, Redact(rules, fields[i].value, path + [fields[i].name], depth + 1), path + [fields[i].name])
      {
        ReachedIsHit(rules, fields[i].name, path);
        PathRulesApply(rules, fields[i].value, path + [fields[i].name], depth + 1);
      }
    case Arr(items) =>
      forall i | 0 <= i < |items| ensures PathsMarked(rules, Redact(rules, items[i], path, depth + 1), path) {
        PathRulesApply(rules, items[i], path, depth + 1);
      }
    case _ =>
  }

  lemma ReachedIsHit(rules: Rules, key: string, path: Path)
    requires RulesSplit(rules)
    ensures RuleReaches(rules, key, path) ==> KeyHit(rules, key, path)
  {
    PathHitMeans(rules, key, path);
    hide PathHit, KeyHitUncached;
  }

  /** Names without dots, at every depth. */
  ghost predicate PlainNames(j: Json)
    decreases j
  {
    match j
    case Obj(fields) => forall i :: 0 <= i < |fields| ==> DotFree(fields[i].name) && PlainNames(fields[i].value)
    case Arr(items) => forall i :: 0 <= i < |items| ==> PlainNames(items[i])
    case _ => true
  }

  /** The entry has a reason to be marked: its name, a path rule that reaches it, or a matching text. */
  ghost predicate HasReason(rules: Rules, f: Field, path: Path) {
    || rules.lower(f.name) in rules.exact
    || rules.keyRegex(f.name)
    || (exists p :: p in rules.patterns && Occurs(p, rules.segments(f.name)))
    || RuleReaches(rules, f.name, path)
    || (f.value.Str? && rules.valueRegex(f.value.s))
  }

  /** Wherever `after` differs from `before`, an entry or an item had a reason to be marked. */
  ghost predicate MarkedWithReason(rules: Rules, before: Json, after: Json, path: Path)
    decreases before
  {
    match before
    case Obj(fields) =>
      && after.Obj? && |after.fields| == |fields|
      && forall i :: 0 <= i < |fields| ==>
           && after.fields[i].name == fields[i].name
           && if HasReason(rules, fields[i], path) then after.fields[i].value == Str(MARKER)
              else MarkedWithReason(rules, fields[i].value, after.fields[i].value, path + [fields[i].name])
    case Arr(items) =>
      && after.Arr? && |after.items| == |items|
      && forall i :: 0 <= i < |items| ==>
           if items[i].Str? && rules.valueRegex(items[i].s) then after.items[i] == Str(MARKER)
           else MarkedWithReason(rules, items[i], after.items[i], path)
    case _ => after == before
  }

  /** With plain names, an entry becomes the marker exactly for these reasons, at every depth of the budget. */
  lemma {:induction false} RedactionHasReasons(rules: Rules, j: Json, path: Path, depth: nat)
    requires RulesSplit(rules) && (forall p :: p in rules.patterns ==> p != [])
    requires PlainNames(j) && forall s :: s in path ==> DotFree(s)
    requires depth <= rules.maxDepth + 1 && Fits(j, rules.maxDepth + 1 - depth)
    ensures MarkedWithReason(rules, j, Redact(rules, j, path, depth), path)
    decreases j
  {
    hide KeyHit, HasReason, RulesSplit;
    match j
    case Obj(fields) =>
      forall i | 0 <= i < |fields|
        ensures KeyHit(rules, fields[i].name, path) || TextHit(rules, fields[i].value) <==> HasReason(rules, fields[i], path)
        ensures MarkedWithReason(rules, fields[i].value,
                                 Redact(rules, fields[i].value, path + [fields[i].name], depth + 1), path + [fields[i].name])
      {
        ReasonIsHit(rules, fields[i], path);
        RedactionHasReasons(rules, fields[i].value, path + [fields[i].name], depth + 1);
      }
    case Arr(items) =>
      forall i | 0 <= i < |items| ensures MarkedWithReason(rules, items[i], Redact(rules, items[i], path, depth + 1), path) {
        RedactionHasReasons(rules, items[i], path, depth + 1);
      }
    case _ =>
  }

  lemma ReasonIsHit(rules: Rules, f: Field, path: Path)
    requires RulesSplit(rules) && (forall p :: p in rules.patterns ==> p != [])
    requires DotFree(f.name) && forall s :: s in path ==> DotFree(s)
    ensures KeyHit(rules, f.name, path) || TextHit(rules, f.value) <==> HasReason(rules, f, path)
  {
    PathHitMeans(rules, f.name, path);
    FastKeyCheck(rules, f.name);
    hide PathHit, KeyHitUncached, RuleReaches, Occurs;
  }

  // ---------------------------------------------------------------- what normalization keeps

  /** A JSON value as a caller would pass it. */
  function Given(j: Json): Raw
    decreases j
  {
    match j
    case Arr(items) => Sequence(seq(|items|, i requires 0 <= i < |items| => Given(items[i])))
    case Obj(fields) => Mapping(seq(|fields|, i requires 0 <= i < |fields| => RawField(fields[i].name, Given(fields[i].value))))
    case _ => Scalar(j)
  }

  /** A JSON value nested no deeper than the bound is normalized to itself. */
  lemma {:induction false} NormalizeKeeps(j: Json, max: nat, depth: nat)
    requires depth <= max && Fits(j, max - depth)
    ensures Normalize(Given(j), max, depth) == j
    decreases j
  {
    match j
    case Arr(items) =>
      forall i | 0 <= i < |items| ensures Normalize(Given(items[i]), max, depth + 1) == items[i] {
        NormalizeKeeps(items[i], max, depth + 1);
      }
      assert Normalize(Given(j), max, depth).items == items;
    case Obj(fields) =>
      forall i | 0 <= i < |fields| ensures Normalize(Given(fields[i].value), max, depth + 1) == fields[i].value {
        NormalizeKeeps(fields[i].value, max, depth + 1);
      }
      assert Normalize(Given(j), max, depth).fields == fields;
    case _ =>
  }

  /** The value with every container below `n` levels replaced by the truncation note. */
  function Cut(j: Json, n: nat): Json
    decreases j
  {
    match j
    case Arr(items) => if n == 0 then Truncated() else Arr(seq(|items|, i requires 0 <= i < |items| => Cut(items[i], n - 1)))
    case Obj(fields) =>
      if n == 0 then Truncated()
      else Obj(seq(|fields|, i requires 0 <= i < |fields| => Field(fields[i].name, Cut(fields[i].value, n - 1))))
    case _ => j
  }

  /** Deeper values are cut at the bound and nowhere else. */
  lemma {:induction false} NormalizeCuts(j: Json, max: nat, depth: nat)
    requires depth <= max
    ensures Normalize(Given(j), max, depth) == Cut(j, max - depth)
    decreases j
  {
    if depth < max {
      match j
      case Arr(items) =>
        forall i | 0 <= i < |items| ensures Normalize(Given(items[i]), max, depth + 1) == Cut(items[i], max - depth - 1) {
          NormalizeCuts(items[i], max, depth + 1);
        }
        assert Normalize(Given(j), max, depth).items == Cut(j, max - depth).items;
      case Obj(fields) =>
        forall i | 0 <= i < |fields|
          ensures Normalize(Given(fields[i].value), max, depth + 1) == Cut(fields[i].value, max - depth - 1)
        {
          NormalizeCuts(fields[i].value, max, depth + 1);
        }
        assert Normalize(Given(j), max, depth).fields == Cut(j, max - depth).fields;
      case _ =>
    }
  }
}

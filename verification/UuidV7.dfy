/** Process-monotonic UUIDv7: the state step of `uuid7` and the bit layout of section 5.7 of RFC 9562. */
module UuidV7 {

  const TWO_12: nat := 0x1000
  const TWO_48: nat := 0x1_0000_0000_0000
  const TWO_62: nat := 0x4000_0000_0000_0000
  const TWO_64: nat := 0x1_0000_0000_0000_0000
  const TWO_76: nat := TWO_64 * TWO_12
  const TWO_80: nat := TWO_76 * 16

  /** The module globals `_last_ms` and `_counter`. */
  datatype Clock = Clock(lastMs: int, counter: nat)

  const START := Clock(-1, 0)

  ghost predicate Valid(s: Clock) {
    s.lastMs >= -1 && s.counter < TWO_12 && (s.lastMs == -1 ==> s.counter == 0)
  }

  /** One call: `now` is the clock reading, possibly behind, `seed` the random start of a new millisecond. */
  function Step(s: Clock, now: nat, seed: nat): Clock
    requires seed < TWO_12
  {
    if now <= s.lastMs then
      var counter := (s.counter + 1) % TWO_12;
      Clock(if counter != 0 then s.lastMs else s.lastMs + 1, counter)
    else
      Clock(now, seed)
  }

  /** The claimed position of a state, as one number: millisecond, then counter. */
  function Position(s: Clock): int {
    s.lastMs * TWO_12 + s.counter
  }

  /** Fields placed as the shifts and masks place them. */
  function Value(ms: nat, counter: nat, randB: nat): nat {
    (ms % TWO_48) * TWO_80 + 7 * TWO_76 + counter * TWO_64 + 2 * TWO_62 + randB
  }

  /** The generator. */
  class Generator {
    var lastMs: int
    var counter: nat

    constructor ()
      ensures State() == START
    {
      lastMs, counter := -1, 0;
    }

    function State(): Clock
      reads this
    {
      Clock(lastMs, counter)
    }

    /** `uuid7`. */
    method Next(now: nat, seed: nat, randB: nat) returns (value: nat)
      requires Valid(State()) && seed < TWO_12 && randB < TWO_62
      modifies this
      ensures Valid(State()) && lastMs >= 0
      ensures State() == Step(old(State()), now, seed) && value == Value(lastMs, counter, randB)
      ensures Position(State()) > old(Position(State())) || old(State()) == START
      ensures now > old(lastMs) ==> lastMs == now
    {
      var ts := now;
      if ts <= lastMs {
        counter := (counter + 1) % TWO_12;
        ts := if counter != 0 then lastMs else lastMs + 1;
      } else {
        counter := seed;
      }
      lastMs := ts;
      value := Value(lastMs, counter, randB);
    }
  }

  /** The claimed position strictly advances, whatever the clock does. */
  lemma StepAdvances(s: Clock, now: nat, seed: nat)
    requires Valid(s) && seed < TWO_12
    ensures Valid(Step(s, now, seed)) && Step(s, now, seed).lastMs >= 0
    ensures s != START ==> Position(Step(s, now, seed)) > Position(s)
    ensures now <= s.lastMs ==> Position(Step(s, now, seed)) == Position(s) + 1
  {
  }

  /** Later positions have greater 128-bit values, while the claimed millisecond fits in 48 bits. */
  lemma ValuesIncrease(a: Clock, b: Clock, ra: nat, rb: nat)
    requires Valid(a) && Valid(b) && 0 <= a.lastMs && Position(a) < Position(b) && b.lastMs < TWO_48
    requires ra < TWO_62 && rb < TWO_62
    ensures Value(a.lastMs, a.counter, ra) < Value(b.lastMs, b.counter, rb)
  {
    assert a.lastMs <= b.lastMs;
    SmallMod(a.lastMs);
    SmallMod(b.lastMs);
  }

  lemma SmallMod(ms: nat)
    requires ms < TWO_48
    ensures ms % TWO_48 == ms
  {
  }

  /** One call's inputs. */
  datatype Call = Call(now: nat, seed: nat, randB: nat)

  ghost predicate InRange(calls: seq<Call>) {
    forall c :: c in calls ==> c.seed < TWO_12 && c.randB < TWO_62
  }

  /** The state after a series of calls. */
  function After(s: Clock, calls: seq<Call>): Clock
    requires InRange(calls)
    decreases |calls|
  {
    if calls == [] then s
    else
      var n := |calls| - 1;
      assert forall c :: c in calls[..n] ==> c in calls;
      Step(After(s, calls[..n]), calls[n].now, calls[n].seed)
  }

  /** The value returned by call `i` of a series. */
  function Returned(s: Clock, calls: seq<Call>, i: nat): nat
    requires InRange(calls) && i < |calls| && Valid(s)
  {
    AfterValid(s, calls[..i + 1]);
    var t := After(s, calls[..i + 1]);
    Value(t.lastMs, t.counter, calls[i].randB)
  }

  lemma {:induction false} AfterValid(s: Clock, calls: seq<Call>)
    requires InRange(calls) && Valid(s)
    ensures Valid(After(s, calls)) && (calls != [] ==> After(s, calls).lastMs >= 0)
    decreases |calls|
  {
    if calls != [] {
      var n := |calls| - 1;
      assert InRange(calls[..n]) && calls[n] in calls;
      AfterValid(s, calls[..n]);
      StepAdvances(After(s, calls[..n]), calls[n].now, calls[n].seed);
    }
  }

  lemma {:induction false} PositionsIncrease(s: Clock, calls: seq<Call>, i: nat, j: nat)
    requires InRange(calls) && Valid(s) && 0 < i < j <= |calls|
    ensures Position(After(s, calls[..i])) < Position(After(s, calls[..j]))
    decreases j
  {
    AfterValid(s, calls[..j - 1]);
    assert calls[..j][..j - 1] == calls[..j - 1];
    assert calls[j - 1] in calls;
    StepAdvances(After(s, calls[..j - 1]), calls[j - 1].now, calls[j - 1].seed);
    if i < j - 1 {
      PositionsIncrease(s, calls, i, j - 1);
    }
  }

  /** Over every series of calls and every clock, including one that runs backwards, the returned values
      strictly increase while the claimed millisecond stays below 2^48. */
  lemma Monotonic(s: Clock, calls: seq<Call>, i: nat, j: nat)
    requires InRange(calls) && Valid(s) && i < j < |calls|
    requires After(s, calls[..j + 1]).lastMs < TWO_48
    ensures Returned(s, calls, i) < Returned(s, calls, j)
  {
    AfterValid(s, calls[..i + 1]);
    AfterValid(s, calls[..j + 1]);
    PositionsIncrease(s, calls, i + 1, j + 1);
    ValuesIncrease(After(s, calls[..i + 1]), After(s, calls[..j + 1]), calls[i].randB, calls[j].randB);
  }

  /** While the clock stands still or runs behind, `k` calls claim `floor((counter + k) / 4096)` further
      milliseconds. */
  lemma {:induction false} StaleCalls(s: Clock, calls: seq<Call>)
    requires InRange(calls) && Valid(s) && s.lastMs >= 0 && forall c :: c in calls ==> c.now <= s.lastMs
    ensures var t := After(s, calls);
      && t.lastMs == s.lastMs + (s.counter + |calls|) / TWO_12
      && t.counter == (s.counter + |calls|) % TWO_12
    decreases |calls|
  {
    if calls != [] {
      var n := |calls| - 1;
      assert calls[n] in calls && forall c :: c in calls[..n] ==> c in calls;
      StaleCalls(s, calls[..n]);
    }
  }

  // ---------------------------------------------------------------- the layout

  function Millisecond(v: nat): nat { v / TWO_80 }
  function Version(v: nat): nat { v / TWO_76 % 16 }
  function RandA(v: nat): nat { v / TWO_64 % TWO_12 }
  function Variant(v: nat): nat { v / TWO_62 % 4 }
  function RandB(v: nat): nat { v % TWO_62 }

  /** Every field of a value reads back (sections 4.1, 4.2 and 5.7 of RFC 9562), and it fits in 128 bits. */
  lemma FieldsReadBack(ms: nat, counter: nat, randB: nat)
    requires ms < TWO_48 && counter < TWO_12 && randB < TWO_62
    ensures var v := Value(ms, counter, randB);
      && v < TWO_80 * TWO_48
      && Millisecond(v) == ms && Version(v) == 7 && RandA(v) == counter && Variant(v) == 2 && RandB(v) == randB
  {
    var v := Value(ms, counter, randB);
    SmallMod(ms);
    var low := 2 * TWO_62 + randB;
    var mid := counter * TWO_64 + low;
    var high := 7 * TWO_76 + mid;
    Digit(v, TWO_80, ms, high);
    Digit(v, TWO_76, ms * 16 + 7, mid);
    Digit(v, TWO_64, (ms * 16 + 7) * TWO_12 + counter, low);
    Digit(v, TWO_62, ((ms * 16 + 7) * TWO_12 + counter) * 4 + 2, randB);
    LastDigit(ms, 16, 7);
    LastDigit(ms * 16 + 7, TWO_12, counter);
    LastDigit((ms * 16 + 7) * TWO_12 + counter, 4, 2);
  }

  lemma Digit(v: nat, base: nat, quotient: nat, rest: nat)
    requires base > 0 && v == quotient * base + rest && rest < base
    ensures v / base == quotient && v % base == rest
  {
    assert v - (v / base) * base == v % base;
    QuotientUnique(v / base, quotient, v % base, rest, base);
  }

  lemma QuotientUnique(q: nat, p: nat, r: nat, s: nat, base: nat)
    requires q * base + r == p * base + s && r < base && s < base
    ensures q == p
  {
    if q < p {
      Gap(q, p, base);
    } else if p < q {
      Gap(p, q, base);
    }
  }

  lemma Gap(q: nat, p: nat, base: nat)
    requires q < p
    ensures p * base >= q * base + base
  {
    var d := p - q;
    assert p * base == q * base + d * base;
    assert d * base == base + (d - 1) * base;
    assert (d - 1) * base >= 0;
  }

  lemma LastDigit(q: nat, base: nat, d: nat)
    requires d < base
    ensures (q * base + d) % base == d
  {
    Digit(q * base + d, base, q, d);
  }
}

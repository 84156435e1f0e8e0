/** OTLP AnyValues: `_otlp_value` and `_any_value`, and the severity scale both sides share. */
module OtlpValues {

  datatype Json =
    | Null
    | Bool(b: bool)
    | Int(n: int)
    | Float(x: real)
    | Str(s: string)
    | Arr(items: seq<Json>)
    | Obj(fields: seq<Field>)

  datatype Field = Field(name: string, value: Json)

  /** The proto3 JSON form; `Unset` is an object without any of the value keys. */
  datatype AnyValue =
    | Unset
    | StringValue(text: string)
    | IntValue(decimal: string)
    | DoubleValue(x: real)
    | BoolValue(b: bool)
    | ArrayValue(values: seq<AnyValue>)
    | KvListValue(entries: seq<KeyValue>)

  datatype KeyValue = KeyValue(key: string, value: AnyValue)

  function Digit(d: nat): char
    requires d < 10
  {
    ['0', '1', '2', '3', '4', '5', '6', '7', '8', '9'][d]
  }

  function Digits(n: nat): string {
    if n < 10 then [Digit(n)] else Digits(n / 10) + [Digit(n % 10)]
  }

  /** `str` of an integer. */
  function Decimal(n: int): string {
    if n < 0 then "-" + Digits(-n) else Digits(n)
  }

  /** Entries that are sent: null values are left out. */
  function Sent(fields: seq<Field>): seq<Field> {
    if fields == [] then []
    else
      var n := |fields| - 1;
      Sent(fields[..n]) + if fields[n].value.Null? then [] else [fields[n]]
  }

  lemma {:induction false} SentFrom(fields: seq<Field>)
    ensures forall f :: f in Sent(fields) <==> f in fields && !f.value.Null?
    ensures forall i :: 0 <= i < |Sent(fields)| ==> Sent(fields)[i] in fields
  {
    if fields != [] {
      var n := |fields| - 1;
      SentFrom(fields[..n]);
      assert fields == fields[..n] + [fields[n]];
    }
  }

  /** `_otlp_value`. */
  function Encode(v: Json): AnyValue
    decreases v
  {
    match v
    case Null => Unset
    case Bool(b) => BoolValue(b)
    case Int(n) => IntValue(Decimal(n))
    case Float(x) => DoubleValue(x)
    case Str(s) => StringValue(s)
    case Arr(items) => ArrayValue(seq(|items|, i requires 0 <= i < |items| => Encode(items[i])))
    case Obj(fields) =>
      SentFrom(fields);
      var sent := Sent(fields);
      KvListValue(seq(|sent|, i requires 0 <= i < |sent| =>
        assert sent[i] in fields;
        KeyValue(sent[i].name, Encode(sent[i].value))))
  }

  /** Assigning a dictionary entry: the first position of a key, its last value. */
  function Put(fields: seq<Field>, f: Field): seq<Field> {
    if fields == [] then [f]
    else if fields[0].name == f.name then [f] + fields[1..]
    else [fields[0]] + Put(fields[1..], f)
  }

  function Dict(fields: seq<Field>): seq<Field> {
    if fields == [] then [] else Put(Dict(fields[..|fields| - 1]), fields[|fields| - 1])
  }

  /** `_any_value` and `_kv_list`: an int64 stays the decimal text it travelled as. */
  function Decode(a: AnyValue): Json
    decreases a
  {
    match a
    case Unset => Null
    case StringValue(text) => Str(text)
    case IntValue(decimal) => Str(decimal)
    case DoubleValue(x) => Float(x)
    case BoolValue(b) => Bool(b)
    case ArrayValue(values) => Arr(seq(|values|, i requires 0 <= i < |values| => Decode(values[i])))
    case KvListValue(entries) =>
      Obj(Dict(seq(|entries|, i requires 0 <= i < |entries| => Field(entries[i].key, Decode(entries[i].value)))))
  }

  /** Dictionaries have distinct keys, at every depth. */
  ghost predicate IsDict(v: Json)
    decreases v
  {
    match v
    case Arr(items) => forall i :: 0 <= i < |items| ==> IsDict(items[i])
    case Obj(fields) => DistinctNames(fields) && forall i :: 0 <= i < |fields| ==> IsDict(fields[i].value)
    case _ => true
  }

  ghost predicate DistinctNames(fields: seq<Field>) {
    forall i, j :: 0 <= i < j < |fields| ==> fields[i].name != fields[j].name
  }

  /** What survives the trip: integers as decimal text, null entries dropped. */
  function Normal(v: Json): Json
    decreases v
  {
    match v
    case Int(n) => Str(Decimal(n))
    case Arr(items) => Arr(seq(|items|, i requires 0 <= i < |items| => Normal(items[i])))
    case Obj(fields) =>
      SentFrom(fields);
      var sent := Sent(fields);
      Obj(seq(|sent|, i requires 0 <= i < |sent| =>
        assert sent[i] in fields;
        Field(sent[i].name, Normal(sent[i].value))))
    case _ => v
  }

  lemma {:induction false} SentDistinct(fields: seq<Field>)
    requires DistinctNames(fields)
    ensures DistinctNames(Sent(fields))
  {
    if fields != [] {
      var n := |fields| - 1;
      SentDistinct(fields[..n]);
      SentFrom(fields[..n]);
      forall f | f in fields[..n] ensures f.name != fields[n].name {
        var i :| 0 <= i < n && fields[i] == f;
      }
    }
  }

  lemma {:induction false} PutNew(fields: seq<Field>, f: Field)
    requires forall g :: g in fields ==> g.name != f.name
    ensures Put(fields, f) == fields + [f]
  {
    if fields != [] {
      assert fields[0] in fields;
      PutNew(fields[1..], f);
    }
  }

  lemma {:induction false} DictOfDistinct(fields: seq<Field>)
    requires DistinctNames(fields)
    ensures Dict(fields) == fields
  {
    if fields != [] {
      var n := |fields| - 1;
      DictOfDistinct(fields[..n]);
      forall g | g in fields[..n] ensures g.name != fields[n].name {
        var i :| 0 <= i < n && fields[i] == g;
      }
      PutNew(fields[..n], fields[n]);
      assert fields == fields[..n] + [fields[n]];
    }
  }

  /** Decoding an encoded value gives its normal form. */
  lemma {:induction false} RoundTrip(v: Json)
    requires IsDict(v)
    ensures Decode(Encode(v)) == Normal(v)
    decreases v, 0
  {
    match v
    case Arr(items) =>
      forall i | 0 <= i < |items| ensures Decode(Encode(items[i])) == Normal(items[i]) {
        RoundTrip(items[i]);
      }
      assert Decode(Encode(v)).items == Normal(v).items;
    case Obj(fields) =>
      SentFrom(fields);
      SentDistinct(fields);
      var sent := Sent(fields);
      forall i | 0 <= i < |sent| ensures Decode(Encode(sent[i].value)) == Normal(sent[i].value) {
        assert sent[i] in fields;
        RoundTripEntry(fields, sent[i]);
      }
      RoundTripObj(fields);
    case _ =>
  }

  lemma RoundTripEntry(fields: seq<Field>, f: Field)
    requires IsDict(Obj(fields)) && f in fields
    ensures Decode(Encode(f.value)) == Normal(f.value)
    decreases f.value, 1
  {
    RoundTrip(f.value);
  }

  lemma RoundTripObj(fields: seq<Field>)
    requires DistinctNames(Sent(fields))
    requires forall i :: 0 <= i < |Sent(fields)| ==> Decode(Encode(Sent(fields)[i].value)) == Normal(Sent(fields)[i].value)
    ensures Decode(Encode(Obj(fields))) == Normal(Obj(fields))
  {
    var sent := Sent(fields);
    var entries := Encode(Obj(fields)).entries;
    var decoded := seq(|entries|, i requires 0 <= i < |entries| => Field(entries[i].key, Decode(entries[i].value)));
    assert forall i :: 0 <= i < |sent| ==> decoded[i] == Field(sent[i].name, Normal(sent[i].value));
    assert DistinctNames(decoded);
    DictOfDistinct(decoded);
    assert decoded == Normal(Obj(fields)).fields;
  }

  lemma {:induction false} NothingToDrop(fields: seq<Field>)
    requires forall f :: f in fields ==> !f.value.Null?
    ensures Sent(fields) == fields
  {
    if fields != [] {
      var n := |fields| - 1;
      var front, last := fields[..n], fields[n];
      assert fields == front + [last];
      assert last in fields && forall f :: f in front ==> f in fields;
      NothingToDrop(front);
      assert Sent(fields) == Sent(front) + [last];
      hide Sent;
    }
  }

  /** The normal form is a fixed point: a second trip changes nothing more. */
  lemma {:induction false} NormalIdempotent(v: Json)
    ensures Normal(Normal(v)) == Normal(v)
    decreases v, 0
  {
    match v
    case Arr(items) =>
      forall i | 0 <= i < |items| ensures Normal(Normal(items[i])) == Normal(items[i]) {
        NormalIdempotent(items[i]);
      }
      assert Normal(Normal(v)).items == Normal(v).items;
    case Obj(fields) =>
      SentFrom(fields);
      var sent := Sent(fields);
      var once := Normal(v).fields;
      forall i | 0 <= i < |sent| ensures Normal(once[i].value) == once[i].value && !once[i].value.Null? {
        assert sent[i] in fields;
        NormalEntry(fields, sent[i]);
      }
      NothingToDrop(once);
      assert Normal(Normal(v)).fields == once;
    case _ =>
  }

  lemma NormalEntry(fields: seq<Field>, f: Field)
    requires f in fields
    ensures Normal(Normal(f.value)) == Normal(f.value)
    decreases f.value, 1
  {
    NormalIdempotent(f.value);
  }

  // ---------------------------------------------------------------- severity

  datatype Severity = Trace | Debug | Info | Warn | Error | Critical

  function SeverityText(s: Severity): string {
    match s
    case Trace => "trace"
    case Debug => "debug"
    case Info => "info"
    case Warn => "warn"
    case Error => "error"
    case Critical => "critical"
  }

  /** `_SEVERITY_NUMBER` of the forwarder. */
  function SeverityNumber(s: Severity): nat {
    match s
    case Trace => 1
    case Debug => 5
    case Info => 9
    case Warn => 13
    case Error => 17
    case Critical => 24
  }

  /** `_severity` of the adapter on a non-zero number. */
  function SeverityOf(number: nat): Severity {
    if number < 5 then Trace
    else if number < 9 then Debug
    else if number < 13 then Info
    else if number < 17 then Warn
    else if number < 21 then Error
    else Critical
  }

  lemma SeverityRoundTrip(s: Severity)
    ensures SeverityNumber(s) != 0 && SeverityOf(SeverityNumber(s)) == s
  {
  }

  // ---------------------------------------------------------------- decimal text

  /** Reading digits, the most significant first. */
  function ReadDigits(s: string): int {
    if s == "" then 0 else 10 * ReadDigits(s[..|s| - 1]) + (s[|s| - 1] as int - '0' as int)
  }

  function ReadDecimal(s: string): int {
    if s != "" && s[0] == '-' then -ReadDigits(s[1..]) else ReadDigits(s)
  }

  predicate IsDigit(c: char) { '0' <= c <= '9' }

  /** The text of a number is made of digits, has no leading zero, and reads back as the number. */
  lemma {:induction false} DigitsReadBack(n: nat)
    ensures Digits(n) != "" && ReadDigits(Digits(n)) == n
    ensures forall c :: c in Digits(n) ==> IsDigit(c)
    ensures n > 0 ==> Digits(n)[0] != '0'
  {
    DigitIs(n % 10);
    if n < 10 {
      assert Digits(n) == [Digit(n)] && Digits(n)[..0] == "";
    } else {
      DigitsReadBack(n / 10);
      var front, last := Digits(n / 10), Digit(n % 10);
      assert Digits(n) == front + [last] && (front + [last])[..|front|] == front;
      hide Digit;
    }
  }

  lemma DigitIs(d: nat)
    requires d < 10
    ensures IsDigit(Digit(d)) && Digit(d) as int - '0' as int == d
  {
  }

  /** An integer sent as decimal text is not changed by the trip. */
  lemma DecimalReadsBack(n: int)
    ensures ReadDecimal(Decimal(n)) == n
    ensures |Decimal(n)| > 1 ==> Decimal(n)[0] != '0'
  {
    var m := if n < 0 then -n else n;
    DigitsReadBack(m);
    if n < 0 {
      assert Decimal(n)[1..] == Digits(m);
    } else {
      assert Digits(m)[0] in Digits(m);
      if m == 0 { assert Digits(0) == [Digit(0)]; }
    }
  }

  /** The severity numbers of OpenTelemetry: four to a severity, from 1. */
  lemma SeverityScale(number: nat)
    requires 1 <= number <= 24
    ensures SeverityOf(number) == [Trace, Debug, Info, Warn, Error, Critical][(number - 1) / 4]
  {
  }
}

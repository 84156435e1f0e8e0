/** Forwarding an event as an OTLP log record and ingesting it again: `event_to_otlp_attributes`,
    `_log_record` and `_canonical_event`. */
module OtlpEvents {
  import opened Keys
  import V = OtlpValues

  /** Sections as dictionaries; a section's JSON text travels as one string. */
  type Section = map<string, V.Json>

  /** `dumps` and `loads`, any pair. */
  datatype Codec = Codec(dumps: Section -> string, loads: string -> Option<Section>)

  datatype Flat = SchemaVersion | EventId | Name | Category | OutcomeField | DeliveryField | StartedAt | EndedAt | ObservedAt

  datatype SectionName = Service | ErrorSection | Source | Attributes | Entities | Tags | Contract

  /** `CORRELATION_KEYS`; anything else goes into `extra`. */
  datatype CorrelationKey =
    | TraceId | SpanId | ParentSpanId | RunId | JobId | InvocationId | AssetKey | PartitionKey
    | Branch | TableName | SnapshotId | Pipeline | ExperimentId | RequestId

  /** A canonical event: absent optional fields are absent keys, absent sections empty. */
  datatype Event = Event(
    flat: map<Flat, string>,
    severity: V.Severity,
    duration: Option<real>,
    correlation: map<CorrelationKey, string>,
    extra: Section,
    sections: map<SectionName, Section>)

  const CORRELATION_KEYS: seq<CorrelationKey> := [
    TraceId, SpanId, ParentSpanId, RunId, JobId, InvocationId, AssetKey, PartitionKey,
    Branch, TableName, SnapshotId, Pipeline, ExperimentId, RequestId]

  /** `_FLAT_FIELDS` that hold text; severity and duration have their own types. */
  const FLATS: seq<Flat> := [SchemaVersion, EventId, Name, Category, OutcomeField, DeliveryField, StartedAt, EndedAt, ObservedAt]

  /** `_JSON_SECTIONS`. */
  const SECTIONS: seq<SectionName> := [Service, ErrorSection, Source, Attributes, Entities, Tags, Contract]

  const SERVICE_FIELDS: set<string> := {"name", "version", "instance_id", "environment", "host"}
  const SOURCE_FIELDS: set<string> := {"producer", "producer_version", "kind", "raw_ref", "adapter", "ingested_at"}
  const ERROR_FIELDS: set<string> := {"code", "message", "why", "fix", "exception_type", "retryable", "stacktrace", "details"}
  const CONTRACT_FIELDS: set<string> := {"name", "version", "schema_id", "schema_hash"}

  /** Attribute names of the `observe.` encoding. */
  datatype Attr = FlatAttr(f: Flat) | SeverityAttr | DurationAttr | CorrelationAttr(key: CorrelationKey) | ExtraAttr | TraceAttr | SpanAttr | SectionAttr(s: SectionName)

  datatype Record = Record(severityNumber: nat, attributes: map<Attr, V.AnyValue>)

  function Of(e: Event, s: SectionName): Section {
    if s in e.sections then e.sections[s] else map[]
  }

  // ---------------------------------------------------------------- export

  /** What the encoding says about one attribute. */
  function Attribute(c: Codec, e: Event, a: Attr): Option<V.Json> {
    match a
    case FlatAttr(f) => if f in e.flat then Some(V.Str(e.flat[f])) else None
    case SeverityAttr => Some(V.Str(V.SeverityText(e.severity)))
    case DurationAttr => if e.duration.Some? then Some(V.Float(e.duration.value)) else None
    case CorrelationAttr(k) => if k in e.correlation then Some(V.Str(e.correlation[k])) else None
    case ExtraAttr => if e.extra != map[] then Some(V.Str(c.dumps(e.extra))) else None
    case TraceAttr => Shortcut(e, TraceId)
    case SpanAttr => Shortcut(e, SpanId)
    case SectionAttr(s) => if Of(e, s) != map[] then Some(V.Str(c.dumps(Of(e, s)))) else None
  }

  function Shortcut(e: Event, key: CorrelationKey): Option<V.Json> {
    if key in e.correlation && e.correlation[key] != "" then Some(V.Str(e.correlation[key])) else None
  }

  /** The attributes of `done` have been considered: those that the event has are in `out`, and no others. */
  ghost predicate Filled(c: Codec, e: Event, out: map<Attr, V.Json>, done: set<Attr>) {
    && (forall a :: a in out ==> a in done && Attribute(c, e, a) == Some(out[a]))
    && (forall a :: a in done && Attribute(c, e, a).Some? ==> a in out)
  }

  lemma Assigned(c: Codec, e: Event, out: map<Attr, V.Json>, done: set<Attr>, a: Attr, v: V.Json)
    requires Filled(c, e, out, done) && Attribute(c, e, a) == Some(v)
    ensures Filled(c, e, out[a := v], done + {a})
  {
    hide Attribute;
  }

  lemma Skipped(c: Codec, e: Event, out: map<Attr, V.Json>, done: set<Attr>, a: Attr)
    requires Filled(c, e, out, done) && Attribute(c, e, a) == None
    ensures Filled(c, e, out, done + {a})
  {
    hide Attribute;
  }

  /** `event_to_otlp_attributes`: a loop over the flat fields, one over the correlation keys, the trace
      shortcuts, and a loop over the sections. */
  method EncodeAttributes(c: Codec, e: Event) returns (out: map<Attr, V.Json>)
    ensures forall a :: a in out <==> Attribute(c, e, a).Some?
    ensures forall a :: a in out ==> Attribute(c, e, a) == Some(out[a])
  {
    hide Filled, Attribute;
    ghost var done: set<Attr>;
    out, done := EncodeFlats(c, e);
    out, done := EncodeCorrelation(c, e, out, done);
    out, done := EncodeShortcuts(c, e, out, done);
    out, done := EncodeSections(c, e, out, done);
    AllFilled(c, e, out, done);
  }

  method EncodeFlats(c: Codec, e: Event) returns (out: map<Attr, V.Json>, ghost done: set<Attr>)
    ensures Filled(c, e, out, done) && SeverityAttr in done && DurationAttr in done && forall f :: f in FLATS ==> FlatAttr(f) in done
  {
    out, done := map[SeverityAttr := V.Str(V.SeverityText(e.severity))], {SeverityAttr};
    if e.duration.Some? {
      Assigned(c, e, out, done, DurationAttr, V.Float(e.duration.value));
      out := out[DurationAttr := V.Float(e.duration.value)];
    }
    done := done + {DurationAttr};
    assert Filled(c, e, out, done);
    hide Filled;
    var i := 0;
    while i < |FLATS|
      invariant 0 <= i <= |FLATS| && Filled(c, e, out, done) && SeverityAttr in done && DurationAttr in done
      invariant forall j :: 0 <= j < i ==> FlatAttr(FLATS[j]) in done
    {
      var f := FLATS[i];
      if f in e.flat.Keys {
        Assigned(c, e, out, done, FlatAttr(f), V.Str(e.flat[f]));
        out := out[FlatAttr(f) := V.Str(e.flat[f])];
      } else {
        Skipped(c, e, out, done, FlatAttr(f));
      }
      done := done + {FlatAttr(f)};
      i := i + 1;
    }
  }

  method EncodeCorrelation(c: Codec, e: Event, was: map<Attr, V.Json>, ghost had: set<Attr>)
      returns (out: map<Attr, V.Json>, ghost done: set<Attr>)
    requires Filled(c, e, was, had)
    ensures Filled(c, e, out, done) && had <= done && forall k :: k in CORRELATION_KEYS ==> CorrelationAttr(k) in done
  {
    hide Filled;
    out, done := was, had;
    var i := 0;
    while i < |CORRELATION_KEYS|
      invariant 0 <= i <= |CORRELATION_KEYS| && Filled(c, e, out, done) && had <= done
      invariant forall j :: 0 <= j < i ==> CorrelationAttr(CORRELATION_KEYS[j]) in done
    {
      var k := CORRELATION_KEYS[i];
      if k in e.correlation.Keys {
        Assigned(c, e, out, done, CorrelationAttr(k), V.Str(e.correlation[k]));
        out := out[CorrelationAttr(k) := V.Str(e.correlation[k])];
      } else {
        Skipped(c, e, out, done, CorrelationAttr(k));
      }
      done := done + {CorrelationAttr(k)};
      i := i + 1;
    }
  }

  method EncodeShortcuts(c: Codec, e: Event, was: map<Attr, V.Json>, ghost had: set<Attr>)
      returns (out: map<Attr, V.Json>, ghost done: set<Attr>)
    requires Filled(c, e, was, had)
    ensures Filled(c, e, out, done) && done == had + {ExtraAttr, TraceAttr, SpanAttr}
  {
    out, done := was, had + {ExtraAttr, TraceAttr, SpanAttr};
    if e.extra != map[] {
      out := out[ExtraAttr := V.Str(c.dumps(e.extra))];
    }
    if TraceId in e.correlation.Keys && e.correlation[TraceId] != "" {
      out := out[TraceAttr := V.Str(e.correlation[TraceId])];
    }
    if SpanId in e.correlation.Keys && e.correlation[SpanId] != "" {
      out := out[SpanAttr := V.Str(e.correlation[SpanId])];
    }
  }

  method EncodeSections(c: Codec, e: Event, was: map<Attr, V.Json>, ghost had: set<Attr>)
      returns (out: map<Attr, V.Json>, ghost done: set<Attr>)
    requires Filled(c, e, was, had)
    ensures Filled(c, e, out, done) && had <= done && forall s :: s in SECTIONS ==> SectionAttr(s) in done
  {
    hide Filled;
    out, done := was, had;
    var i := 0;
    while i < |SECTIONS|
      invariant 0 <= i <= |SECTIONS| && Filled(c, e, out, done) && had <= done
      invariant forall j :: 0 <= j < i ==> SectionAttr(SECTIONS[j]) in done
    {
      var s := SECTIONS[i];
      if s in e.sections.Keys && e.sections[s] != map[] {
        Assigned(c, e, out, done, SectionAttr(s), V.Str(c.dumps(e.sections[s])));
        out := out[SectionAttr(s) := V.Str(c.dumps(e.sections[s]))];
      } else {
        Skipped(c, e, out, done, SectionAttr(s));
      }
      done := done + {SectionAttr(s)};
      i := i + 1;
    }
  }

  lemma AllFilled(c: Codec, e: Event, out: map<Attr, V.Json>, done: set<Attr>)
    requires Filled(c, e, out, done) && {SeverityAttr, DurationAttr, ExtraAttr, TraceAttr, SpanAttr} <= done
    requires forall f :: f in FLATS ==> FlatAttr(f) in done
    requires forall k :: k in CORRELATION_KEYS ==> CorrelationAttr(k) in done
    requires forall s :: s in SECTIONS ==> SectionAttr(s) in done
    ensures forall a :: a in out <==> Attribute(c, e, a).Some?
    ensures forall a :: a in out ==> Attribute(c, e, a) == Some(out[a])
  {
    hide Attribute;
    forall a: Attr ensures a in done {
      match a
      case FlatAttr(f) => EveryFlat(f);
      case SectionAttr(s) => EverySection(s);
      case CorrelationAttr(k) => EveryKey(k);
      case _ =>
    }
  }

  lemma EveryFlat(f: Flat)
    ensures f in FLATS
  {
    match f
    case SchemaVersion | EventId | Name | Category | OutcomeField | DeliveryField | StartedAt | EndedAt | ObservedAt =>
  }

  lemma EverySection(s: SectionName)
    ensures s in SECTIONS
  {
    match s
    case Service | ErrorSection | Source | Attributes | Entities | Tags | Contract =>
  }

  lemma EveryKey(k: CorrelationKey)
    ensures k in CORRELATION_KEYS
  {
    match k
    case TraceId | SpanId | ParentSpanId | RunId | JobId | InvocationId | AssetKey | PartitionKey
      | Branch | TableName | SnapshotId | Pipeline | ExperimentId | RequestId =>
  }

  /** `_log_record`: the attributes as AnyValues. */
  ghost predicate IsRecord(r: Record, c: Codec, e: Event) {
    && r.severityNumber == V.SeverityNumber(e.severity)
    && (forall a :: a in r.attributes <==> Attribute(c, e, a).Some?)
    && (forall a :: a in r.attributes ==> r.attributes[a] == V.Encode(Attribute(c, e, a).value))
  }

  method LogRecord(c: Codec, e: Event) returns (r: Record)
    ensures IsRecord(r, c, e)
  {
    hide Attribute;
    var attributes := EncodeAttributes(c, e);
    r := Record(V.SeverityNumber(e.severity), map a | a in attributes :: V.Encode(attributes[a]));
  }

  // ---------------------------------------------------------------- import

  function Text(r: Record, a: Attr): Option<string> {
    if a in r.attributes && V.Decode(r.attributes[a]).Str? then Some(V.Decode(r.attributes[a]).s) else None
  }

  /** `_json_section`. */
  function SectionOf(c: Codec, r: Record, a: Attr): Option<Section> {
    var text := Text(r, a);
    if text.Some? then c.loads(text.value) else None
  }

  /** Known fields that carry a value. */
  function Known(s: Section, fields: set<string>): Section {
    map k | k in s && k in fields && !s[k].Null? :: s[k]
  }

  /** A dictionary entry that Python counts as true. */
  predicate Truthy(s: Section, k: string) {
    k in s && !s[k].Null? && s[k] != V.Str("")
  }

  /** `resource` is the service identity of the enclosing resource, used when the record carries none. */
  function ImportService(c: Codec, r: Record, resource: Section): Section {
    var section := SectionOf(c, r, SectionAttr(Service));
    var s := if section.Some? then Known(section.value, SERVICE_FIELDS) else resource;
    if Truthy(s, "name") then s else s["name" := V.Str("otlp")]
  }

  function ImportSource(c: Codec, r: Record, adapter: string): Section {
    var section := SectionOf(c, r, SectionAttr(Source));
    var s := if section.Some? then Known(section.value, SOURCE_FIELDS) else map["kind" := V.Str("logs")];
    var t := s["adapter" := V.Str(adapter)];
    if "producer" in t then t else t["producer" := V.Str("otlp")]
  }

  function ImportError(c: Codec, r: Record): Section {
    var section := SectionOf(c, r, SectionAttr(ErrorSection));
    if section.None? then map[]
    else
      var s := Known(section.value, ERROR_FIELDS);
      if Truthy(s, "message") then s else map[]
  }

  function Plain(c: Codec, r: Record, s: SectionName): Section {
    var section := SectionOf(c, r, SectionAttr(s));
    if section.Some? then section.value else map[]
  }

  function ImportContract(c: Codec, r: Record): Section {
    var s := Plain(c, r, Contract);
    map k | k in s && k in CONTRACT_FIELDS :: s[k]
  }

  function ImportAttributes(c: Codec, r: Record, scope: string): Section {
    var s := Plain(c, r, Attributes);
    if scope != "" then s["otel.scope" := V.Str(scope)] else s
  }

  /** What the adapter knows besides the attributes: the scope and service of the enclosing groups, its own
      name, and what it falls back on for an absent id, event name or time. */
  datatype Origin = Origin(service: Section, scope: string, adapter: string, newId: string, name: string, observed: string)

  /** `_canonical_event`, on a record whose attributes are all of the `observe.` encoding. */
  ghost function Import(c: Codec, r: Record, o: Origin): Event {
    Event(
      ImportFlats(r, o),
      V.SeverityOf(r.severityNumber),
      ImportDuration(r),
      ImportCorrelation(r),
      ImportExtra(c, r),
      ImportSections(c, r, o))
  }

  function ImportSection(c: Codec, r: Record, s: SectionName, o: Origin): Section {
    match s
    case Service => ImportService(c, r, o.service)
    case Source => ImportSource(c, r, o.adapter)
    case ErrorSection => ImportError(c, r)
    case Attributes => ImportAttributes(c, r, o.scope)
    case Contract => ImportContract(c, r)
    case Entities => Plain(c, r, Entities)
    case Tags => Plain(c, r, Tags)
  }

  function ImportSections(c: Codec, r: Record, o: Origin): map<SectionName, Section> {
    map s: SectionName | s in SECTIONS :: ImportSection(c, r, s, o)
  }

  predicate Given(r: Record, f: Flat) {
    Text(r, FlatAttr(f)).Some? && Text(r, FlatAttr(f)).value != ""
  }

  /** What stands in for a field that the record does not carry. */
  function Default(f: Flat, o: Origin): Option<string> {
    match f
    case SchemaVersion => Some("1.0")
    case EventId => Some(o.newId)
    case Name => Some(o.name)
    case Category => Some("other")
    case OutcomeField => Some("unknown")
    case DeliveryField => Some("telemetry")
    case ObservedAt => Some(o.observed)
    case StartedAt | EndedAt => None
  }

  function ImportFlats(r: Record, o: Origin): map<Flat, string> {
    map f: Flat | f in FLATS && (Given(r, f) || Default(f, o).Some?) ::
      if Given(r, f) then Text(r, FlatAttr(f)).value else Default(f, o).value
  }

  function ImportDuration(r: Record): Option<real> {
    if DurationAttr in r.attributes && V.Decode(r.attributes[DurationAttr]).Float?
    then Some(V.Decode(r.attributes[DurationAttr]).x) else None
  }

  function ImportExtra(c: Codec, r: Record): Section {
    var section := SectionOf(c, r, ExtraAttr);
    if section.Some? then section.value else map[]
  }

  /** Canonical keys, then the trace shortcuts where a key is missing. */
  ghost function ImportCorrelation(r: Record): map<CorrelationKey, string> {
    var own := map k: CorrelationKey | Text(r, CorrelationAttr(k)).Some? :: Text(r, CorrelationAttr(k)).value;
    var withTrace := if TraceId !in own && Text(r, TraceAttr).Some? then own[TraceId := Text(r, TraceAttr).value] else own;
    if SpanId !in withTrace && Text(r, SpanAttr).Some? then withTrace[SpanId := Text(r, SpanAttr).value] else withTrace
  }

  // ---------------------------------------------------------------- the round trip

  /** `loads` undoes `dumps` on what this event carries. */
  ghost predicate InverseOn(c: Codec, e: Event) {
    && (e.extra != map[] ==> c.loads(c.dumps(e.extra)) == Some(e.extra))
    && (forall s: SectionName :: Of(e, s) != map[] ==> c.loads(c.dumps(Of(e, s))) == Some(Of(e, s)))
  }

  /** A valid canonical event: its mandatory fields, known section fields, a named service, an error only
      with its message.  The source section is optional. */
  ghost predicate Canonical(e: Event) {
    && (forall f :: f in e.flat ==> e.flat[f] != "")
    && (forall f: Flat :: f in e.flat || f == StartedAt || f == EndedAt)
    && Known(Of(e, Service), SERVICE_FIELDS) == Of(e, Service) && Truthy(Of(e, Service), "name")
    && Known(Of(e, Source), SOURCE_FIELDS) == Of(e, Source)
    && Known(Of(e, ErrorSection), ERROR_FIELDS) == Of(e, ErrorSection)
    && (Of(e, ErrorSection) != map[] ==> Truthy(Of(e, ErrorSection), "message"))
    && (forall k :: k in Of(e, Contract) ==> k in CONTRACT_FIELDS)
  }

  lemma ExportedText(r: Record, c: Codec, e: Event, a: Attr)
    requires IsRecord(r, c, e) && !a.DurationAttr?
    ensures Text(r, a) == match Attribute(c, e, a) { case None => None case Some(v) => Some(v.s) }
  {
  }

  lemma ExportedSection(r: Record, c: Codec, e: Event, s: SectionName)
    requires IsRecord(r, c, e) && InverseOn(c, e)
    ensures SectionOf(c, r, SectionAttr(s)) == if Of(e, s) != map[] then Some(Of(e, s)) else None
  {
    ExportedText(r, c, e, SectionAttr(s));
  }

  /** What the trip may change of a section. */
  function Expected(e: Event, s: SectionName, o: Origin): Section {
    match s
    case Source =>
      var given := if Of(e, Source) == map[] then map["kind" := V.Str("logs")] else Of(e, Source);
      (if "producer" in given then given else given["producer" := V.Str("otlp")])["adapter" := V.Str(o.adapter)]
    case Attributes => if o.scope != "" then Of(e, Attributes)["otel.scope" := V.Str(o.scope)] else Of(e, Attributes)
    case _ => Of(e, s)
  }

  /** A canonical event comes back with the same identity, enumerations, severity, times, duration,
      correlation, error, entities, tags and contract; only the source's adapter, the defaults of an absent
      source and the added scope attribute differ. */
  lemma EventRoundTrip(c: Codec, e: Event, r: Record, o: Origin)
    requires InverseOn(c, e) && Canonical(e) && IsRecord(r, c, e)
    ensures var back := Import(c, r, o);
      && back.flat == e.flat && back.severity == e.severity && back.duration == e.duration
      && back.correlation == e.correlation && back.extra == e.extra
      && forall s: SectionName :: s in back.sections && back.sections[s] == Expected(e, s, o)
  {
    hide ImportFlats, ImportDuration, ImportCorrelation, ImportExtra, ImportSections, Expected, InverseOn, Canonical;
    assert r.severityNumber == V.SeverityNumber(e.severity);
    hide IsRecord;
    V.SeverityRoundTrip(e.severity);
    FlatsBack(c, e, r, o);
    CorrelationBack(c, e, r);
    ExtraBack(c, e, r);
    SectionsBack(c, e, r, o);
    DurationBack(c, e, r);
  }

  lemma ExtraBack(c: Codec, e: Event, r: Record)
    requires InverseOn(c, e) && IsRecord(r, c, e)
    ensures ImportExtra(c, r) == e.extra
  {
    ExportedText(r, c, e, ExtraAttr);
  }

  lemma DurationBack(c: Codec, e: Event, r: Record)
    requires IsRecord(r, c, e)
    ensures ImportDuration(r) == e.duration
  {
  }

  lemma FlatsBack(c: Codec, e: Event, r: Record, o: Origin)
    requires Canonical(e) && IsRecord(r, c, e)
    ensures ImportFlats(r, o) == e.flat
  {
    hide IsRecord, Canonical;
    var back := ImportFlats(r, o);
    forall f: Flat ensures f in back <==> f in e.flat
      ensures f in e.flat ==> back[f] == e.flat[f]
    {
      FlatBack(c, e, r, o, f);
    }
  }

  lemma FlatBack(c: Codec, e: Event, r: Record, o: Origin, f: Flat)
    requires Canonical(e) && IsRecord(r, c, e)
    ensures f in ImportFlats(r, o) <==> f in e.flat
    ensures f in e.flat ==> ImportFlats(r, o)[f] == e.flat[f]
  {
    ExportedText(r, c, e, FlatAttr(f));
    EveryFlat(f);
    hide IsRecord, Text, Known;
    if f !in e.flat {
      assert f == StartedAt || f == EndedAt;
    }
  }

  lemma CorrelationBack(c: Codec, e: Event, r: Record)
    requires IsRecord(r, c, e)
    ensures ImportCorrelation(r) == e.correlation
  {
    forall k: CorrelationKey
      ensures Text(r, CorrelationAttr(k)) == if k in e.correlation then Some(e.correlation[k]) else None
    {
      ExportedText(r, c, e, CorrelationAttr(k));
    }
    ExportedText(r, c, e, TraceAttr);
    ExportedText(r, c, e, SpanAttr);
    hide Text, IsRecord;
    assert (map k: CorrelationKey | Text(r, CorrelationAttr(k)).Some? :: Text(r, CorrelationAttr(k)).value) == e.correlation;
  }

  lemma SectionsBack(c: Codec, e: Event, r: Record, o: Origin)
    requires InverseOn(c, e) && Canonical(e) && IsRecord(r, c, e)
    ensures forall s: SectionName :: s in ImportSections(c, r, o) && ImportSections(c, r, o)[s] == Expected(e, s, o)
  {
    forall s: SectionName
      ensures s in ImportSections(c, r, o) && ImportSections(c, r, o)[s] == Expected(e, s, o)
    {
      EverySection(s);
      SectionBack(c, e, r, s, o);
      hide ImportSection, Expected, InverseOn, Canonical, IsRecord;
    }
  }

  lemma SectionBack(c: Codec, e: Event, r: Record, s: SectionName, o: Origin)
    requires InverseOn(c, e) && Canonical(e) && IsRecord(r, c, e)
    ensures ImportSection(c, r, s, o) == Expected(e, s, o)
  {
    ExportedSection(r, c, e, s);
    hide SectionOf, InverseOn, IsRecord, Of;
    match s
    case Service => ServiceBack(c, e, r, o.service);
    case Source => SourceBack(c, e, r, o);
    case ErrorSection => ErrorBack(c, e, r);
    case Contract => ContractBack(c, e, r);
    case Attributes | Entities | Tags =>
  }

  lemma ServiceBack(c: Codec, e: Event, r: Record, resource: Section)
    requires Canonical(e) && SectionOf(c, r, SectionAttr(Service)) == if Of(e, Service) != map[] then Some(Of(e, Service)) else None
    ensures ImportService(c, r, resource) == Of(e, Service)
  {
    hide SectionOf, Of, Known;
  }

  lemma SourceBack(c: Codec, e: Event, r: Record, o: Origin)
    requires Canonical(e) && SectionOf(c, r, SectionAttr(Source)) == if Of(e, Source) != map[] then Some(Of(e, Source)) else None
    ensures ImportSource(c, r, o.adapter) == Expected(e, Source, o)
  {
    hide SectionOf, Of, Known;
  }

  lemma ErrorBack(c: Codec, e: Event, r: Record)
    requires Canonical(e)
    requires SectionOf(c, r, SectionAttr(ErrorSection)) == if Of(e, ErrorSection) != map[] then Some(Of(e, ErrorSection)) else None
    ensures ImportError(c, r) == Of(e, ErrorSection)
  {
    hide SectionOf, Of, Known;
  }

  lemma ContractBack(c: Codec, e: Event, r: Record)
    requires Canonical(e) && SectionOf(c, r, SectionAttr(Contract)) == if Of(e, Contract) != map[] then Some(Of(e, Contract)) else None
    ensures ImportContract(c, r) == Of(e, Contract)
  {
    hide SectionOf, Of, Known, Truthy;
  }

  /** Correlation ids are found verbatim in a record, the trace and span ids twice: for joining, and for the trip. */
  lemma ExportMeans(r: Record, c: Codec, e: Event)
    requires IsRecord(r, c, e)
    ensures forall k :: k in e.correlation ==>
      CorrelationAttr(k) in r.attributes && r.attributes[CorrelationAttr(k)] == V.StringValue(e.correlation[k])
    ensures TraceId in e.correlation && e.correlation[TraceId] != "" ==>
      TraceAttr in r.attributes && r.attributes[TraceAttr] == V.StringValue(e.correlation[TraceId])
    ensures SpanId in e.correlation && e.correlation[SpanId] != "" ==>
      SpanAttr in r.attributes && r.attributes[SpanAttr] == V.StringValue(e.correlation[SpanId])
    ensures SeverityAttr in r.attributes && r.attributes[SeverityAttr] == V.StringValue(V.SeverityText(e.severity))
  {
  }
}

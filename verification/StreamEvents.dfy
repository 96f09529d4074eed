/** What the observation a stream exports says besides its attributes, and what its events hold. */
module StreamEvents {
  import opened Model
  import opened Streams
  import opened StreamRuns
  import opened StreamSchema
  import opened StreamAttributes

  // ----- The observation.

  function StatusWord(call: Call): string {
    if call.Error? && call.canceled then "canceled" else if call.Error? then "error" else "ok"
  }

  /** The error of a call of Error: an empty classification is the status, and a missing message is
      the classification. */
  function FailureHeld(call: Call): Option<Failure> {
    if !call.Error? then None
    else
      var classification := if call.classification != "" then call.classification else StatusWord(call);
      var message := match call.message case Some(m) => m case None => classification;
      Some(Failure("stream", classification, message, call.retryable && !call.canceled, false))
  }

  /** Over any run, what the exported observation is besides its attributes and its events. */
  lemma ObservationExported(o: Opening, calls: seq<Call>, k: nat, out: Observation)
    requires ProperOpening(o) && FirstTerminal(calls, k) && Proper(calls[k])
    requires ExportAt(StartStream(o).0, FRESH, calls, k) == Some(out)
    ensures out.id == o.corr.observation && out.parent == o.corr.parent && out.trace == o.corr.trace
    ensures out.kind == "stream" && out.name == (if o.name == "" then "stream" else o.name)
    ensures out.status == StatusWord(calls[k]) && out.error == FailureHeld(calls[k])
    ensures out.timestamp == Time(Instant(o.at, o.now), true)
    ensures out.redaction == o.captured.records + calls[k].captured.records
  {
    var h := StartStream(o).0;
    var p := Step(h, Run(EventMaker(h), Timer(h), FRESH, calls[..k]), calls[k]).0;
    HandleHolds(o, h);
    FinalHolds(h, p, calls[k], out);
  }

  lemma HandleHolds(o: Opening, h: Handle)
    requires h == StartStream(o).0
    ensures h.corr == o.corr && h.name == (if o.name == "" then "stream" else o.name)
    ensures h.start == Time(Instant(o.at, o.now), true) && h.redaction == o.captured.records
  {
  }

  lemma FailureIs(call: Call)
    ensures FailureOf(call) == FailureHeld(call) && StatusOf(call) == StatusWord(call)
  {
  }

  lemma FinalHolds(h: Handle, p: Progress, call: Call, out: Observation)
    requires Terminal(call) && out == FinalObservation(h, p, call)
    ensures out.id == h.corr.observation && out.parent == h.corr.parent && out.trace == h.corr.trace
    ensures out.kind == "stream" && out.name == h.name && out.timestamp == h.start
    ensures out.status == StatusWord(call) && out.error == FailureHeld(call)
    ensures out.redaction == h.redaction + call.captured.records
  {
    FailureIs(call);
  }

  // ----- The span it becomes.

  /** Over any run, the span the exported observation becomes: the error without kind or code, with the
      flags it came with and the cancellation flag of the attributes, and an event for each event. */
  lemma SpanExported(o: Opening, calls: seq<Call>, k: nat, s: Span)
    requires ProperOpening(o) && FirstTerminal(calls, k) && Proper(calls[k])
    requires ExportedSpan(StartStream(o).0, FRESH, calls, k, s)
    ensures s.identity == Identity(o.corr.observation, o.corr.parent, o.corr.trace)
    ensures s.kind == "stream" && s.name == (if o.name == "" then "stream" else o.name)
    ensures s.status == StatusWord(calls[k]) && s.start == Time(Instant(o.at, o.now), true)
    ensures s.redaction == o.captured.records + calls[k].captured.records
    ensures s.error == ErrorSaid(calls[k])
  {
    var out := ExportAt(StartStream(o).0, FRESH, calls, k).value;
    ObservationExported(o, calls, k, out);
    CanceledFlagExported(o, calls, k, out.attributes);
    ErrorIs(out, calls[k]);
    SpanIs(out, s);
  }

  /** The error of a span whose last call is this one. */
  function ErrorSaid(call: Call): Option<ErrorInfo> {
    match FailureHeld(call)
    case None => None
    case Some(f) =>
      Some(ErrorInfo("stream", "", "", f.message, f.classification, Some(f.retryable),
                     if Canceled(call) then Some(true) else None, Some(false)))
  }

  lemma CanceledFlagExported(o: Opening, calls: seq<Call>, k: nat, attrs: Attributes)
    requires Exports(o, calls, k, attrs)
    ensures CanceledFlag(attrs) == if Canceled(calls[k]) then Some(true) else None
  {
    ErrorExported(o, calls, k, attrs);
  }

  lemma ErrorIs(out: Observation, call: Call)
    requires out.error == FailureHeld(call)
    requires CanceledFlag(out.attributes) == if Canceled(call) then Some(true) else None
    ensures ToErrorInfo(out) == ErrorSaid(call)
  {
  }

  lemma SpanIs(out: Observation, s: Span)
    requires s == ToSpan(out)
    ensures s.identity == Identity(out.id, out.parent, out.trace) && s.kind == out.kind && s.name == out.name
    ensures s.status == out.status && s.start == out.timestamp.UTC() && s.redaction == out.redaction
    ensures s.attributes == out.attributes && s.error == ToErrorInfo(out)
  {
  }

  /** An event of a span says what the event of the observation says, under the category of its name. */
  lemma EventIs(out: Observation, s: Span, i: nat)
    requires s == ToSpan(out) && i < |out.events|
    ensures |s.events| == |out.events|
    ensures var o, e := out.events[i], s.events[i];
            && e.identity == Identity(o.id, o.parent, o.trace)
            && e.name == o.kind && e.category == EventCategory(o.kind)
            && e.status == o.status && e.timestamp.at == o.timestamp.at && e.timestamp.utc
            && e.attributes == o.attributes && e.redaction == o.redaction
            && (e.error.None? <==> o.error.None?)
            && (o.error.Some? ==>
                  && e.error.value.operation == o.error.value.operation
                  && e.error.value.message == o.error.value.message
                  && e.error.value.classification == o.error.value.classification
                  && e.error.value.retryable == Some(o.error.value.retryable)
                  && e.error.value.dropped == Some(o.error.value.dropped)
                  && e.error.value.kind == "" && e.error.value.code == ""
                  && e.error.value.canceled == CanceledFlag(o.attributes))
  {
  }

  // ----- Numbers in identifiers.

  predicate Digit(c: char) { '0' <= c <= '9' }

  /** The number that digits write. */
  function Worth(s: string): int {
    if s == "" then 0 else 10 * Worth(s[..|s| - 1]) + (s[|s| - 1] as int - '0' as int)
  }

  lemma WorthSnoc(s: string, c: char)
    ensures Worth(s + [c]) == 10 * Worth(s) + (c as int - '0' as int)
  {
    assert (s + [c])[..|s|] == s;
  }

  lemma LastDigit(n: nat)
    ensures var c := "0123456789"[n % 10];
            Digit(c) && c as int == '0' as int + n % 10 && Digits(n) == (if n < 10 then "" else Digits(n / 10)) + [c]
  {
  }

  lemma {:induction false} DigitsWorth(n: nat)
    ensures Digits(n) != "" && Digit(Digits(n)[0]) && Worth(Digits(n)) == n
  {
    var c := "0123456789"[n % 10];
    LastDigit(n);
    if n < 10 {
      WorthSnoc("", c);
      assert "" + [c] == [c];
    } else {
      DigitsWorth(n / 10);
      WorthSnoc(Digits(n / 10), c);
    }
  }

  /** Different numbers are written differently. */
  lemma DecimalsDiffer(a: int, b: int)
    requires Decimal(a) == Decimal(b)
    ensures a == b
  {
    DigitsWorth(if a < 0 then -a else a);
    DigitsWorth(if b < 0 then -b else b);
    if a < 0 { assert Decimal(a)[0] == '-' && Decimal(a)[1..] == Digits(-a); }
    if b < 0 { assert Decimal(b)[0] == '-' && Decimal(b)[1..] == Digits(-b); }
  }

  lemma ChunkId(h: Handle, call: Call)
    requires call.Chunk? && h.corr.observation != ""
    ensures EventOf(h, call).id == h.corr.observation + "." + ("chunk." + Decimal(call.index))
  {
  }

  lemma SameTail(prefix: string, a: string, b: string)
    requires prefix + a == prefix + b
    ensures a == b
  {
    assert (prefix + a)[|prefix|..] == a && (prefix + b)[|prefix|..] == b;
  }

  /** Chunks with different indexes have events with different identifiers, unless the stream has none. */
  lemma ChunkIdsDiffer(h: Handle, a: Call, b: Call)
    requires a.Chunk? && b.Chunk? && h.corr.observation != "" && EventOf(h, a).id == EventOf(h, b).id
    ensures a.index == b.index
  {
    ChunkId(h, a);
    ChunkId(h, b);
    SameTail(h.corr.observation + ".", "chunk." + Decimal(a.index), "chunk." + Decimal(b.index));
    SameTail("chunk.", Decimal(a.index), Decimal(b.index));
    DecimalsDiffer(a.index, b.index);
  }

  // ----- Events.

  /** What every event of a stream says: whose it is, what it is called, when it happened. */
  ghost predicate EventSays(h: Handle, suffix: string, name: string, status: string, at: int, e: Observation) {
    && e.id == (if h.corr.observation == "" then "" else h.corr.observation + "." + suffix)
    && e.parent == h.corr.observation && e.trace == h.corr.trace && e.kind == name && e.name == name
    && e.status == status && e.timestamp == Time(at, true) && e.duration.None? && e.events == []
  }

  /** The service, the correlation of the stream, and the metadata of the call. */
  ghost predicate BaseHeld(attrs: Attributes, h: Handle, metadata: Metadata) {
    && ServiceHeld(attrs, h.service) && CorrelationHeld(attrs, h.corr)
    && forall name :: At(attrs, "metadata." + name) == Written(TextIn(metadata, name))
  }

  /** The same where every observation writes. */
  ghost predicate AsBase(attrs: Attributes, base: Attributes) {
    Reads(attrs, base, OfService) && Reads(attrs, base, OfCorrelation) && Reads(attrs, base, OfMetadata)
  }

  lemma BaseReads(attrs: Attributes, s: Service, c: Correlation, metadata: Metadata)
    requires AsBase(attrs, BaseAttributes(s, c, metadata))
    ensures Reads(attrs, WithTexts(map[], ServiceLabels(s)), OfService)
    ensures Reads(attrs, WithTexts(map[], CorrelationLabels(c)), OfCorrelation)
    ensures Reads(attrs, MetadataAttributes(metadata), OfMetadata)
  {
    forall key | AreaOf(key) == OfService ensures At(attrs, key) == At(WithTexts(map[], ServiceLabels(s)), key) {
      BaseAt(s, c, metadata, key);
    }
    forall key | AreaOf(key) == OfCorrelation
      ensures At(attrs, key) == At(WithTexts(map[], CorrelationLabels(c)), key)
    {
      BaseAt(s, c, metadata, key);
    }
    forall key | AreaOf(key) == OfMetadata ensures At(attrs, key) == At(MetadataAttributes(metadata), key) {
      BaseAt(s, c, metadata, key);
    }
  }

  lemma BaseIsHeld(attrs: Attributes, h: Handle, suffix: string, metadata: Metadata)
    requires AsBase(attrs, BaseAttributes(h.service, EventCorrelation(h.corr, suffix), metadata))
    ensures BaseHeld(attrs, h, metadata)
  {
    var corr := EventCorrelation(h.corr, suffix);
    BaseReads(attrs, h.service, corr, metadata);
    ServiceTexts(attrs, h.service);
    CorrelationTexts(attrs, corr);
    forall name ensures At(attrs, "metadata." + name) == Written(TextIn(metadata, name)) {
      MetadataAt(metadata, name);
      MetadataArea(name);
    }
  }

  lemma MetadataArea(name: string)
    ensures AreaOf("metadata." + name) == OfMetadata
  {
    assert ("metadata." + name)[0] == 'm' && |"metadata." + name| > 8;
  }

  lemma IndexArea()
    ensures AreaOf("stream.chunk.index") == OfIndex
  {
  }

  lemma ChunkArea(key: string)
    ensures CHUNK <= key ==> AreaOf(key) == OfChunk
  {
    if CHUNK <= key { CapturedWithin(CHUNK, Captured(map[key := Str("")], []), OfChunk); }
  }

  lemma ChunkAt(h: Handle, call: Call, attrs: Attributes, key: string)
    requires call.Chunk? && Proper(call) && attrs == EventOf(h, call).attributes
    ensures var corr := EventCorrelation(h.corr, "chunk." + Decimal(call.index));
            At(attrs, key)
            == if AreaOf(key) == OfChunk then At(call.captured.attributes, key)
               else if key == "stream.chunk.index" then Some(Int64(call.index))
               else At(BaseAttributes(h.service, corr, call.metadata), key)
  {
    var corr := EventCorrelation(h.corr, "chunk." + Decimal(call.index));
    var indexed := BaseAttributes(h.service, corr, call.metadata)["stream.chunk.index" := Int64(call.index)];
    BaseAt(h.service, corr, call.metadata, key);
    IndexArea();
    CapturedWithin(CHUNK, call.captured, OfChunk);
    OtherWriter(indexed, call.captured.attributes, OfChunk, key);
    UnionAt(indexed, call.captured.attributes, key);
  }

  /** The event of a chunk: its index, its summary, and what every event holds. */
  lemma ChunkEventHolds(h: Handle, call: Call, e: Observation)
    requires call.Chunk? && Proper(call) && e == EventOf(h, call)
    ensures EventSays(h, "chunk." + Decimal(call.index), "stream.chunk", "ok", Instant(call.at, call.now), e)
    ensures At(e.attributes, "stream.chunk.index") == Some(Int64(call.index)) &&
            BaseHeld(e.attributes, h, call.metadata)
    ensures forall key :: CHUNK <= key ==> At(e.attributes, key) == At(call.captured.attributes, key)
    ensures e.redaction == call.captured.records && e.error.None?
  {
    var suffix := "chunk." + Decimal(call.index);
    IndexArea();
    ChunkAt(h, call, e.attributes, "stream.chunk.index");
    forall key | AreaOf(key) == OfMetadata || AreaOf(key) == OfService || AreaOf(key) == OfCorrelation
      ensures At(e.attributes, key)
           == At(BaseAttributes(h.service, EventCorrelation(h.corr, suffix), call.metadata), key)
    {
      ChunkAt(h, call, e.attributes, key);
    }
    BaseIsHeld(e.attributes, h, suffix, call.metadata);
    forall key | CHUNK <= key ensures At(e.attributes, key) == At(call.captured.attributes, key) {
      ChunkArea(key);
      ChunkAt(h, call, e.attributes, key);
    }
  }

  /** The latency of a first token: what the call gives, or the time since the start; never negative,
      in whole milliseconds. */
  function FirstMillis(h: Handle, call: Call): int
    requires call.FirstToken?
  {
    if call.latency > 0 then call.latency / 1000000
    else if call.latency < 0 then 0
    else Millis(h.start.at, Instant(call.at, call.now))
  }

  lemma FirstTokenAt(h: Handle, call: Call, attrs: Attributes, key: string)
    requires call.FirstToken? && attrs == EventOf(h, call).attributes
    ensures At(attrs, key)
         == if key == FIRST then Some(Int64(FirstTokenMs(h, call)))
            else At(BaseAttributes(h.service, EventCorrelation(h.corr, "first_token"), call.metadata), key)
  {
  }

  lemma FirstTokenBase(h: Handle, call: Call, attrs: Attributes, base: Attributes)
    requires call.FirstToken? && attrs == EventOf(h, call).attributes
    requires base == BaseAttributes(h.service, EventCorrelation(h.corr, "first_token"), call.metadata)
    ensures AsBase(attrs, base)
  {
    LatencyAreas();
    forall key | AreaOf(key) != OfLatency ensures At(attrs, key) == At(base, key) { FirstTokenAt(h, call, attrs, key); }
  }

  lemma FirstMillisIs(h: Handle, call: Call)
    requires call.FirstToken?
    ensures FirstTokenMs(h, call) == FirstMillis(h, call)
  {
  }

  /** The event of the first token: its latency, and what every event holds. */
  lemma FirstTokenEventHolds(h: Handle, call: Call, e: Observation)
    requires call.FirstToken? && e == EventOf(h, call)
    ensures EventSays(h, "first_token", "stream.first_token", "ok", Instant(call.at, call.now), e)
    ensures At(e.attributes, FIRST) == Some(Int64(FirstMillis(h, call))) && BaseHeld(e.attributes, h, call.metadata)
    ensures e.redaction == [] && e.error.None?
  {
    FirstTokenSays(h, call, e);
    FirstMillisIs(h, call);
    FirstTokenAt(h, call, e.attributes, FIRST);
    FirstTokenBaseHeld(h, call, e.attributes);
  }

  lemma FirstTokenSays(h: Handle, call: Call, e: Observation)
    requires call.FirstToken? && e == EventOf(h, call)
    ensures EventSays(h, "first_token", "stream.first_token", "ok", Instant(call.at, call.now), e)
    ensures e.redaction == [] && e.error.None?
  {
  }

  lemma FirstTokenBaseHeld(h: Handle, call: Call, attrs: Attributes)
    requires call.FirstToken? && attrs == EventOf(h, call).attributes
    ensures BaseHeld(attrs, h, call.metadata)
  {
    FirstTokenBase(h, call, attrs, BaseAttributes(h.service, EventCorrelation(h.corr, "first_token"), call.metadata));
    BaseIsHeld(attrs, h, "first_token", call.metadata);
  }

  lemma ReasonArea()
    ensures AreaOf("cancellation.reason") == OfReason
  {
  }

  lemma CancellationAt(h: Handle, at: Time, e: Failure, attrs: Attributes, key: string)
    requires e.classification != "" && attrs == CancellationEvent(h, at, Some(e)).attributes
    ensures At(attrs, key)
         == if AreaOf(key) == OfError then At(WithFailure(map[], e, true), key)
            else if key == "cancellation.reason" then Some(Str(e.classification))
            else At(BaseAttributes(h.service, EventCorrelation(h.corr, "cancellation"), map[]), key)
  {
    var base := BaseAttributes(h.service, EventCorrelation(h.corr, "cancellation"), map[]);
    BaseAt(h.service, EventCorrelation(h.corr, "cancellation"), map[], key);
    ReasonAt(base, e.classification, key);
    FailureAt(WithText(base, "cancellation.reason", e.classification), e, true, key);
  }

  lemma ReasonAt(base: Attributes, reason: string, key: string)
    requires reason != ""
    ensures At(WithText(base, "cancellation.reason", reason), key)
         == if key == "cancellation.reason" then Some(Str(reason)) else At(base, key)
    ensures AreaOf("cancellation.reason") == OfReason
  {
    ReasonArea();
  }

  /** The event of a cancellation: its reason and its error, at the end of the stream. */
  lemma CancellationEventHolds(h: Handle, call: Call, e: Observation)
    requires call.Error? && call.canceled && h.start.utc && e == EventOf(h, call)
    ensures var at := Instant(call.at, call.now);
            EventSays(h, "cancellation", "cancellation", "canceled", if at < h.start.at then h.start.at else at, e)
    ensures var reason := Str(if call.classification != "" then call.classification else "canceled");
            && At(e.attributes, "cancellation.reason") == Some(reason)
            && ErrorHeld(e.attributes, Some(Str("stream")), Some(reason), Some(Bool(false)), Some(Bool(true)))
    ensures BaseHeld(e.attributes, h, map[]) && e.redaction == [] && e.error == FailureHeld(call)
  {
    var f := FailureOf(call).value;
    CancellationIs(h, call, e);
    ReasonArea();
    CancellationAt(h, EndTime(h, call), f, e.attributes, "cancellation.reason");
    forall key | AreaOf(key) == OfError ensures At(e.attributes, key) == At(WithFailure(map[], f, true), key) {
      CancellationAt(h, EndTime(h, call), f, e.attributes, key);
    }
    StreamAttributes.FailureHeld(f, true);
    ErrorReadsHeld(e.attributes, WithFailure(map[], f, true), Some(Str("stream")), Some(Str(f.classification)),
                   Some(Bool(false)), Some(Bool(true)));
    forall key | AreaOf(key) == OfMetadata || AreaOf(key) == OfService || AreaOf(key) == OfCorrelation
      ensures At(e.attributes, key)
           == At(BaseAttributes(h.service, EventCorrelation(h.corr, "cancellation"), map[]), key)
    {
      CancellationAt(h, EndTime(h, call), f, e.attributes, key);
    }
    BaseIsHeld(e.attributes, h, "cancellation", map[]);
  }

  lemma CancellationIs(h: Handle, call: Call, e: Observation)
    requires call.Error? && call.canceled && h.start.utc && e == EventOf(h, call)
    ensures e == CancellationEvent(h, EndTime(h, call), FailureOf(call)) && FailureOf(call) == FailureHeld(call)
    ensures var at := Instant(call.at, call.now);
            EndTime(h, call) == Time(if at < h.start.at then h.start.at else at, true)
    ensures FailureOf(call).value.operation == "stream" && FailureOf(call).value.classification != ""
    ensures FailureOf(call).value.classification
         == if call.classification != "" then call.classification else "canceled"
    ensures !FailureOf(call).value.retryable && !FailureOf(call).value.dropped
  {
  }
}

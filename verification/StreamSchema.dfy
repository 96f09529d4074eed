/** What a stream exports is a valid span, before and after redaction. */
module StreamSchema {
  import opened Model
  import opened Streams
  import opened StreamRuns
  import Redaction
  import SchemaPreserved

  // ----- Keys, told apart by a few of their characters.

  /** The keys that must hold integers, and some others that are never written. */
  predicate IntLike(k: string) {
    |k| > 8 && ((k[0] == 'g' && (k[6] == 'u' || k[6] == 'l' || (k[6] == 'r' && k[8] == 't')))
                || (k[0] == 's' && k[1] == 't' && |k| > 13 && k[13] == 'i'))
  }

  /** The keys of the provider and the model. */
  predicate NameLike(k: string) { |k| > 8 && k[0] == 'g' && (k[6] == 'p' || k[6] == 'm') }

  predicate ErrorLike(k: string) { k != "" && k[0] == 'e' }

  /** The key must not be of any of these kinds. */
  predicate Free(k: string) { !IntLike(k) && !NameLike(k) && !ErrorLike(k) }

  lemma RequiredInts(i: nat)
    requires i < |GENAI_INTS|
    ensures IntLike(GENAI_INTS[i])
  {
  }

  lemma NameKeys()
    ensures NameLike("genai.provider") && NameLike("genai.model")
  {
  }

  // ----- Attributes written so far.

  ghost predicate Calm(attrs: Attributes) {
    ValidAttributes(attrs) && forall k :: k in attrs && IntLike(k) ==> attrs[k].Int64?
  }

  ghost predicate Errorless(attrs: Attributes) { forall k :: k in attrs ==> !ErrorLike(k) }

  ghost predicate Nameless(attrs: Attributes) { forall k :: k in attrs ==> !NameLike(k) }

  ghost predicate Quiet(attrs: Attributes) { Calm(attrs) && Errorless(attrs) && Nameless(attrs) }

  predicate Named(attrs: Attributes) { HasString(attrs, "genai.provider") && HasString(attrs, "genai.model") }

  /** The attributes of a handle. */
  ghost predicate Ready(attrs: Attributes) { Calm(attrs) && Errorless(attrs) && Named(attrs) }

  lemma QuietText(attrs: Attributes, key: string, value: string)
    requires Quiet(attrs) && Free(key)
    ensures Quiet(WithText(attrs, key, value))
  {
  }

  predicate FreeLabels(labels: Labels) { forall i :: 0 <= i < |labels| ==> Free(labels[i].0) }

  lemma {:induction false} QuietTexts(attrs: Attributes, labels: Labels)
    requires Quiet(attrs) && FreeLabels(labels)
    ensures Quiet(WithTexts(attrs, labels))
    decreases |labels|
  {
    if labels != [] {
      var n := |labels| - 1;
      QuietTexts(attrs, labels[..n]);
      QuietText(WithTexts(attrs, labels[..n]), labels[n].0, labels[n].1);
    }
  }

  lemma LabelsAreFree(s: Service, c: Correlation)
    ensures FreeLabels(ServiceLabels(s)) && FreeLabels(CorrelationLabels(c))
  {
  }

  lemma QuietUnion(a: Attributes, b: Attributes)
    requires Quiet(a) && Quiet(b)
    ensures Quiet(a + b)
  {
  }

  lemma QuietMetadata(metadata: Metadata)
    ensures Quiet(MetadataAttributes(metadata))
  {
    forall k | k in MetadataAttributes(metadata) ensures Free(k) && MetadataAttributes(metadata)[k].Str? {
      var name :| name in metadata && metadata[name] != "" && k == MetadataKey(name);
      assert k[0] == 'm';
    }
  }

  lemma QuietBase(s: Service, c: Correlation, metadata: Metadata)
    ensures Quiet(BaseAttributes(s, c, metadata))
  {
    LabelsAreFree(s, c);
    QuietTexts(map[], ServiceLabels(s));
    QuietTexts(WithTexts(map[], ServiceLabels(s)), CorrelationLabels(c));
    QuietMetadata(metadata);
    QuietUnion(WithTexts(WithTexts(map[], ServiceLabels(s)), CorrelationLabels(c)), MetadataAttributes(metadata));
  }

  // ----- Summaries.

  /** What the redaction makes of a summary whose key is `prefix`. */
  ghost predicate Under(prefix: string, c: Captured) {
    forall k :: k in c.attributes ==> prefix <= k && c.attributes[k].Str?
  }

  const REQUEST := "genai.request.summary"
  const RESPONSE := "genai.response.summary"
  const CHUNK := "stream.chunk.summary"

  lemma QuietCapture(prefix: string, c: Captured)
    requires Under(prefix, c) && |prefix| > 13
    requires prefix == REQUEST || prefix == RESPONSE || prefix == CHUNK
    ensures Quiet(c.attributes)
  {
    forall k | k in c.attributes ensures Free(k) {
      assert k[0] == prefix[0] && k[1] == prefix[1] && k[6] == prefix[6] && k[8] == prefix[8] && k[13] == prefix[13];
    }
  }

  // ----- Openings and calls.

  /** The clock never shows the zero time, and summaries have been through the redaction. */
  ghost predicate Proper(call: Call) {
    && !call.now.IsZero()
    && (call.Chunk? ==> Under(CHUNK, call.captured))
    && (Terminal(call) ==> Under(RESPONSE, call.captured))
  }

  ghost predicate ProperOpening(o: Opening) {
    !o.now.IsZero() && Under(REQUEST, o.captured) && o.provider != "" && o.model != ""
  }

  ghost predicate ReadyHandle(h: Handle) {
    Ready(h.attributes) && h.name != "" && !h.start.IsZero() && h.start.utc
  }

  lemma MergeReady(attrs: Attributes, more: Attributes)
    requires Ready(attrs) && Quiet(more)
    ensures Ready(attrs + more)
  {
    NameKeys();
  }

  lemma CountReady(attrs: Attributes, key: string, n: int)
    requires Ready(attrs) && IntLike(key)
    ensures Ready(attrs[key := Int64(n)])
  {
    NameKeys();
  }

  lemma NamesReady(attrs: Attributes, provider: string, model: string)
    requires Quiet(attrs) && provider != "" && model != ""
    ensures Ready(WithNames(attrs, provider, model))
  {
    NameKeys();
  }

  lemma RetryKey()
    ensures IntLike("genai.retry.attempt")
  {
  }

  lemma OpeningReady(o: Opening, h: Handle)
    requires ProperOpening(o) && h == StartStream(o).0
    ensures StartStream(o).1 == FRESH && ReadyHandle(h)
  {
    var base := BaseAttributes(o.service, o.corr, o.metadata);
    QuietBase(o.service, o.corr, o.metadata);
    NamesReady(base, o.provider, o.model);
    var named := WithNames(base, o.provider, o.model);
    RetryKey();
    CountReady(named, "genai.retry.attempt", o.retryAttempt);
    QuietCapture(REQUEST, o.captured);
    MergeReady(WithRetry(named, o.retryAttempt), o.captured.attributes);
  }

  // ----- Failures.

  lemma FailureWrites(attrs: Attributes, e: Failure, canceled: bool, key: string)
    ensures var after := WithFailure(attrs, e, canceled);
            && (!ErrorLike(key) ==> (key in after <==> key in attrs) && (key in attrs ==> after[key] == attrs[key]))
            && (key in after && ErrorLike(key) && key !in attrs ==> Supported(after[key]))
  {
  }

  lemma FailureFlag(attrs: Attributes, e: Failure, canceled: bool)
    requires Errorless(attrs)
    ensures CanceledFlag(WithFailure(attrs, e, canceled)) == if canceled then Some(true) else None
  {
  }

  lemma FailureCalm(attrs: Attributes, e: Failure, canceled: bool)
    requires Calm(attrs) && Errorless(attrs)
    ensures Calm(WithFailure(attrs, e, canceled))
    ensures Named(attrs) ==> Named(WithFailure(attrs, e, canceled))
  {
    forall k ensures k in WithFailure(attrs, e, canceled) && k !in attrs ==> ErrorLike(k) {
      FailureWrites(attrs, e, canceled, k);
    }
    forall k
      ensures k in attrs ==> k in WithFailure(attrs, e, canceled) && WithFailure(attrs, e, canceled)[k] == attrs[k]
    {
      FailureWrites(attrs, e, canceled, k);
    }
    forall k | k in WithFailure(attrs, e, canceled) ensures Supported(WithFailure(attrs, e, canceled)[k]) {
      FailureWrites(attrs, e, canceled, k);
    }
    NameKeys();
  }

  // ----- Events.

  predicate GoodIds(c: Correlation) { c.observation != "" && c.trace != "" }

  /** An event with nothing about an error, given its attributes. */
  lemma PlainEventValid(c: Correlation, name: string, at: Time, attrs: Attributes, records: seq<Record>, e: Event)
    requires e == ToEvent(EventObservation(c, name, at, "ok", attrs, records, None))
    requires GoodIds(c) && !at.IsZero() && at.utc && Calm(attrs)
    requires (name == "stream.chunk" && HasInt(attrs, "stream.chunk.index"))
          || (name == "stream.first_token" && HasInt(attrs, "genai.latency.first_token_ms"))
    ensures ValidEvent(e)
  {
    assert EventRequired(e);
    assert ValidToolEvent(e) && ValidEventError(e);
  }

  lemma IndexedIsCalm(base: Attributes, key: string, n: int, more: Attributes)
    requires Quiet(base) && Quiet(more) && IntLike(key)
    ensures Calm(base[key := Int64(n)] + more) && HasInt(base[key := Int64(n)] + more, key)
  {
  }

  lemma CountIsCalm(base: Attributes, key: string, n: int)
    requires Quiet(base) && IntLike(key)
    ensures Calm(base[key := Int64(n)]) && HasInt(base[key := Int64(n)], key)
  {
  }

  lemma EventIds(c: Correlation, suffix: string)
    requires GoodIds(c)
    ensures GoodIds(EventCorrelation(c, suffix))
  {
  }

  lemma ChunkKey()
    ensures IntLike("stream.chunk.index")
  {
  }

  lemma LatencyKey()
    ensures IntLike("genai.latency.first_token_ms")
  {
  }

  lemma ChunkEventValid(h: Handle, call: Call, e: Event)
    requires GoodIds(h.corr) && Proper(call) && call.Chunk? && e == ToEvent(ChunkEvent(h, call))
    ensures ValidEvent(e)
  {
    var corr := EventCorrelation(h.corr, "chunk." + Decimal(call.index));
    var base := BaseAttributes(h.service, corr, call.metadata);
    EventIds(h.corr, "chunk." + Decimal(call.index));
    QuietBase(h.service, corr, call.metadata);
    QuietCapture(CHUNK, call.captured);
    ChunkKey();
    IndexedIsCalm(base, "stream.chunk.index", call.index, call.captured.attributes);
    PlainEventValid(corr, "stream.chunk", ObservationTime(call.at, call.now),
                    base["stream.chunk.index" := Int64(call.index)] + call.captured.attributes,
                    call.captured.records, e);
  }

  lemma FirstTokenEventValid(h: Handle, call: Call, e: Event)
    requires GoodIds(h.corr) && Proper(call) && call.FirstToken? && e == ToEvent(FirstTokenEvent(h, call))
    ensures ValidEvent(e)
  {
    var corr := EventCorrelation(h.corr, "first_token");
    var base := BaseAttributes(h.service, corr, call.metadata);
    var ms := FirstTokenMs(h, call);
    EventIds(h.corr, "first_token");
    QuietBase(h.service, corr, call.metadata);
    LatencyKey();
    CountIsCalm(base, "genai.latency.first_token_ms", ms);
    PlainEventValid(corr, "stream.first_token", ObservationTime(call.at, call.now),
                    base["genai.latency.first_token_ms" := Int64(ms)], [], e);
  }

  lemma CanceledEventValid(c: Correlation, at: Time, attrs: Attributes, e: Failure, out: Event)
    requires out == ToEvent(EventObservation(c, "cancellation", at, "canceled", attrs, [], Some(e)))
    requires GoodIds(c) && !at.IsZero() && at.utc && ValidAttributes(attrs)
    requires HasString(attrs, "cancellation.reason") && CanceledFlag(attrs) == Some(true)
    requires e.operation != "" && e.classification != "" && !e.retryable
    ensures ValidEvent(out)
  {
    assert EventRequired(out);
    assert ValidToolEvent(out) && ValidEventError(out);
  }

  lemma ReasonKey()
    ensures Free("cancellation.reason")
  {
  }

  lemma CancellationAttributes(base: Attributes, e: Failure)
    requires Quiet(base) && e.classification != ""
    ensures var attrs := WithFailure(WithText(base, "cancellation.reason", e.classification), e, true);
            ValidAttributes(attrs) && HasString(attrs, "cancellation.reason") && CanceledFlag(attrs) == Some(true)
  {
    var attrs := WithText(base, "cancellation.reason", e.classification);
    ReasonKey();
    QuietText(base, "cancellation.reason", e.classification);
    FailureCalm(attrs, e, true);
    FailureFlag(attrs, e, true);
    FailureWrites(attrs, e, true, "cancellation.reason");
  }

  lemma CancellationEventValid(h: Handle, at: Time, e: Failure, out: Event)
    requires GoodIds(h.corr) && !at.IsZero() && at.utc && out == ToEvent(CancellationEvent(h, at, Some(e)))
    requires e.operation != "" && e.classification != "" && !e.retryable
    ensures ValidEvent(out)
  {
    var corr := EventCorrelation(h.corr, "cancellation");
    var base := BaseAttributes(h.service, corr, map[]);
    EventIds(h.corr, "cancellation");
    QuietBase(h.service, corr, map[]);
    CancellationAttributes(base, e);
    CanceledEventValid(corr, at, WithFailure(WithText(base, "cancellation.reason", e.classification), e, true), e, out);
  }

  lemma ChunkCallValid(h: Handle, call: Call, e: Event)
    requires GoodIds(h.corr) && Proper(call) && call.Chunk? && e == ToEvent(EventOf(h, call))
    ensures ValidEvent(e)
  {
    ChunkEventValid(h, call, e);
  }

  lemma FirstTokenCallValid(h: Handle, call: Call, e: Event)
    requires GoodIds(h.corr) && Proper(call) && call.FirstToken? && e == ToEvent(EventOf(h, call))
    ensures ValidEvent(e)
  {
    FirstTokenEventValid(h, call, e);
  }

  lemma CanceledCallEvent(h: Handle, call: Call)
    requires ReadyHandle(h) && Proper(call) && Canceled(call)
    ensures EventOf(h, call) == CancellationEvent(h, EndTime(h, call), FailureOf(call))
    ensures var at, e := EndTime(h, call), FailureOf(call);
            !at.IsZero() && at.utc && e.Some?
            && e.value.operation != "" && e.value.classification != "" && !e.value.retryable
  {
  }

  lemma CanceledCallValid(h: Handle, call: Call, e: Event)
    requires ReadyHandle(h) && GoodIds(h.corr) && Proper(call) && Canceled(call) && e == ToEvent(EventOf(h, call))
    ensures ValidEvent(e)
  {
    CanceledCallEvent(h, call);
    CanceledEventOf(h, EndTime(h, call), FailureOf(call), e);
  }

  lemma CanceledEventOf(h: Handle, at: Time, failure: Option<Failure>, e: Event)
    requires GoodIds(h.corr) && !at.IsZero() && at.utc && e == ToEvent(CancellationEvent(h, at, failure))
    requires failure.Some? && failure.value.operation != "" && failure.value.classification != "" &&
             !failure.value.retryable
    ensures ValidEvent(e)
  {
    CancellationEventValid(h, at, failure.value, e);
  }

  // ----- The span.

  predicate IntCounts(counts: Counts) { forall i :: 0 <= i < |counts| ==> IntLike(counts[i].0) }

  lemma {:induction false} CountsReady(attrs: Attributes, counts: Counts)
    requires Ready(attrs) && IntCounts(counts)
    ensures Ready(WithCounts(attrs, counts))
    decreases |counts|
  {
    if counts != [] {
      var n := |counts| - 1;
      CountsReady(attrs, counts[..n]);
      CountReady(WithCounts(attrs, counts[..n]), counts[n].0, counts[n].1.tokens);
    }
  }

  lemma UsageKeys(u: Usage)
    ensures IntCounts(UsageCounts(u))
  {
  }

  lemma TotalKey()
    ensures IntLike("genai.latency.total_ms")
  {
  }

  lemma EndAttributesReady(h: Handle, p: Progress, call: Call)
    requires ReadyHandle(h) && Proper(call) && Terminal(call)
    ensures Ready(EndAttributes(h, p, call))
  {
    var total, first := "genai.latency.total_ms", "genai.latency.first_token_ms";
    var a := h.attributes + MetadataAttributes(call.metadata);
    QuietMetadata(call.metadata);
    MergeReady(h.attributes, MetadataAttributes(call.metadata));
    var ms := EndTime(h, call).Sub(h.start) / NANOS_PER_MS;
    TotalKey();
    LatencyKey();
    CountReady(a, total, ms);
    var b := a[total := Int64(ms)];
    CountReady(b, first, p.firstTokenMs);
    var c := if p.firstTokenEmitted then b[first := Int64(p.firstTokenMs)] else b;
    UsageKeys(call.usage);
    CountsReady(c, UsageCounts(call.usage));
    QuietCapture(RESPONSE, call.captured);
    MergeReady(WithCounts(c, UsageCounts(call.usage)), call.captured.attributes);
  }

  lemma NoFlag(attrs: Attributes)
    requires Errorless(attrs)
    ensures CanceledFlag(attrs) == None
  {
    assert ErrorLike("error.canceled");
  }

  lemma FinalAttributesReady(h: Handle, p: Progress, call: Call)
    requires ReadyHandle(h) && Proper(call) && Terminal(call)
    ensures var attrs := FinalAttributes(h, p, call);
            Calm(attrs) && Named(attrs) && CanceledFlag(attrs) == if Canceled(call) then Some(true) else None
  {
    var attrs := EndAttributes(h, p, call);
    EndAttributesReady(h, p, call);
    if call.Error? {
      FailureCalm(attrs, FailureOf(call).value, call.canceled);
      FailureFlag(attrs, FailureOf(call).value, call.canceled);
    } else {
      NoFlag(attrs);
    }
  }

  lemma CalmIsGenai(attrs: Attributes)
    requires Calm(attrs) && Named(attrs)
    ensures ValidGenaiAttributes(attrs)
  {
    forall i | 0 <= i < |GENAI_INTS| ensures IntIfPresent(attrs, GENAI_INTS[i]) { RequiredInts(i); }
  }

  lemma SpanIsGenai(s: Span)
    requires s.kind == "stream" && Calm(s.attributes) && Named(s.attributes)
    ensures s.kind in SPAN_KINDS && SpanRequired(s) && ValidToolSpan(s)
  {
    CalmIsGenai(s.attributes);
  }

  /** What a stream span needs besides its ids and events. */
  ghost predicate GoodStreamSpan(s: Span) {
    && s.kind == "stream" && s.name != "" && Calm(s.attributes) && Named(s.attributes)
    && !s.start.IsZero() && s.start.utc && s.end.utc && s.start.at <= s.end.at
    && match s.error
       case None => s.status == "ok"
       case Some(e) =>
         && e.operation != "" && e.classification != ""
         && ((s.status == "error" && e.retryable.Some? && e.canceled.None?)
             || (s.status == "canceled" && CanceledFlags(e)))
  }

  lemma GoodStreamSpanValid(s: Span)
    requires GoodStreamSpan(s)
    requires ValidIdentity(s.identity) ==> forall i :: 0 <= i < |s.events| ==> ValidEvent(s.events[i])
    ensures ValidSpan(s) <==> ValidIdentity(s.identity)
  {
    SpanIsGenai(s);
  }

  lemma FinalIsGood(h: Handle, p: Progress, call: Call, s: Span)
    requires ReadyHandle(h) && Proper(call) && Terminal(call) && s == ToSpan(FinalObservation(h, p, call))
    ensures GoodStreamSpan(s) && s.identity == Identity(h.corr.observation, h.corr.parent, h.corr.trace)
    ensures |s.events| == |p.events| && forall i :: 0 <= i < |s.events| ==> s.events[i] == ToEvent(p.events[i])
  {
    FinalAttributesReady(h, p, call);
  }

  lemma {:induction false} AddingMembers(calls: seq<Call>)
    ensures forall c :: c in Adding(calls) ==> c in calls && !Terminal(c)
  {
    if calls != [] {
      AddingMembers(calls[..|calls| - 1]);
      assert calls == calls[..|calls| - 1] + [calls[|calls| - 1]];
    }
  }

  /** The calls that add an event to what the k-th call exports. */
  function AddingUpTo(calls: seq<Call>, k: nat): seq<Call>
    requires k < |calls|
  {
    Adding(calls[..k]) + if StatusOf(calls[k]) == "canceled" then [calls[k]] else []
  }

  lemma AddingUpToMembers(calls: seq<Call>, k: nat)
    requires k < |calls|
    ensures forall c :: c in AddingUpTo(calls, k) ==> c in calls && (Terminal(c) ==> Canceled(c))
  {
    AddingMembers(calls[..k]);
  }

  lemma EventsValid(h: Handle, adding: seq<Call>, events: seq<Event>)
    requires ReadyHandle(h) && GoodIds(h.corr) && |events| == |adding|
    requires forall i :: 0 <= i < |adding| ==> Proper(adding[i]) && (Terminal(adding[i]) ==> Canceled(adding[i]))
    requires forall i :: 0 <= i < |adding| ==> events[i] == ToEvent(EventOf(h, adding[i]))
    ensures forall i :: 0 <= i < |events| ==> ValidEvent(events[i])
  {
    forall i | 0 <= i < |events| ensures ValidEvent(events[i]) {
      if adding[i].Chunk? {
        ChunkCallValid(h, adding[i], events[i]);
      } else if adding[i].FirstToken? {
        FirstTokenCallValid(h, adding[i], events[i]);
      } else {
        CanceledCallValid(h, adding[i], events[i]);
      }
    }
  }

  /** What the k-th call exports, as a span. */
  ghost predicate ExportedSpan(h: Handle, p: Progress, calls: seq<Call>, k: nat, s: Span)
    requires k < |calls|
  {
    ExportAt(h, p, calls, k).Some? && s == ToSpan(ExportAt(h, p, calls, k).value)
  }

  lemma ExportedEvents(h: Handle, calls: seq<Call>, k: nat, s: Span)
    requires ReadyHandle(h) && FirstTerminal(calls, k) && ExportedSpan(h, FRESH, calls, k, s)
    ensures var adding := AddingUpTo(calls, k);
            |s.events| == |adding| && forall i :: 0 <= i < |adding| ==> s.events[i] == ToEvent(EventOf(h, adding[i]))
  {
    ExportedOnce(h, calls, k, k);
    var os := ExportAt(h, FRESH, calls, k).value.events;
    assert os == Events(EventMaker(h), AddingUpTo(calls, k));
    assert forall i :: 0 <= i < |os| ==> s.events[i] == ToEvent(os[i]);
  }

  lemma ExportedIsGood(h: Handle, calls: seq<Call>, k: nat, s: Span)
    requires ReadyHandle(h) && FirstTerminal(calls, k) && Proper(calls[k]) && ExportedSpan(h, FRESH, calls, k, s)
    ensures GoodStreamSpan(s) && s.identity == Identity(h.corr.observation, h.corr.parent, h.corr.trace)
  {
    FinalIsGood(h, Step(h, Run(EventMaker(h), Timer(h), FRESH, calls[..k]), calls[k]).0, calls[k], s);
  }

  lemma ReadyHandleExportsValid(h: Handle, calls: seq<Call>, k: nat, s: Span)
    requires ReadyHandle(h) && FirstTerminal(calls, k) && forall c :: c in calls ==> Proper(c)
    requires ExportedSpan(h, FRESH, calls, k, s)
    ensures ValidSpan(s) <==> GoodIds(h.corr)
  {
    assert calls[k] in calls;
    ExportedIsGood(h, calls, k, s);
    AddingUpToMembers(calls, k);
    ExportedEvents(h, calls, k, s);
    if GoodIds(h.corr) { EventsValid(h, AddingUpTo(calls, k), s.events); }
    GoodStreamSpanValid(s);
  }

  /** Every run of a handle that was opened with a provider and a model: what its first
      terminal call exports is a valid span if and only if the observation and trace ids are
      not empty. */
  lemma ExportedSpanIsValid(o: Opening, calls: seq<Call>, k: nat, h: Handle, p: Progress, s: Span)
    requires ProperOpening(o) && FirstTerminal(calls, k) && forall c :: c in calls ==> Proper(c)
    requires (h, p) == StartStream(o) && ExportedSpan(h, p, calls, k, s)
    ensures ValidSpan(s) <==> GoodIds(o.corr)
  {
    OpeningReady(o, h);
    ReadyHandleExportsValid(h, calls, k, s);
  }

  /** And it stays valid through redaction, with any options. */
  lemma ExportedSpanStaysValid(o: Opening, calls: seq<Call>, k: nat, h: Handle, p: Progress, s: Span,
                               opts: Redaction.Options)
    requires ProperOpening(o) && FirstTerminal(calls, k) && GoodIds(o.corr) && forall c :: c in calls ==> Proper(c)
    requires (h, p) == StartStream(o) && ExportedSpan(h, p, calls, k, s)
    ensures ValidSpan(Redaction.RedactedSpan(Redaction.RuleFor, s, opts))
  {
    ExportedSpanIsValid(o, calls, k, h, p, s);
    SchemaPreserved.RedactionPreservesSchema(s, opts);
  }
}

/** The times a stream reports: its end, and the latency of its first token. */
module StreamTimes {
  import opened Model
  import opened Streams
  import opened StreamRuns
  import opened StreamSchema

  // ----- The end.

  /** The span ends when the terminal call says, or at the start if that is later, provided the
      duration is an int64; otherwise it ends the longest int64 after the start. */
  lemma SpanEndsInTime(h: Handle, p: Progress, call: Call)
    requires Terminal(call) && h.start.utc
    ensures var s, end := ToSpan(FinalObservation(h, p, call)), EndTime(h, call);
            && h.start.at <= end.at
            && (ObservationTime(call.at, call.now).at >= h.start.at ==> end == ObservationTime(call.at, call.now))
            && s.start == h.start
            && s.end.at == (if end.at - h.start.at <= MAX_INT64 then end.at else h.start.at + MAX_INT64)
            && (s.end == end <==> end.at - h.start.at <= MAX_INT64)
  {
  }

  // ----- Attributes that no other write touches.

  const FIRST_TOKEN := "genai.latency.first_token_ms"

  predicate LatencyLike(k: string) { |k| > 8 && k[0] == 'g' && k[6] == 'l' }

  ghost predicate NoLatency(attrs: Attributes) { forall k :: k in attrs ==> !LatencyLike(k) }

  ghost predicate AllTexts(attrs: Attributes) { forall k :: k in attrs ==> attrs[k].Str? }

  lemma FirstTokenKey()
    ensures LatencyLike(FIRST_TOKEN) && !ErrorLike(FIRST_TOKEN) && FIRST_TOKEN != "genai.latency.total_ms"
  {
    assert |FIRST_TOKEN| == 28 && |"genai.latency.total_ms"| == 22;
  }

  lemma QuietTextsHaveNoLatency(attrs: Attributes)
    requires Quiet(attrs) && AllTexts(attrs)
    ensures NoLatency(attrs)
  {
    forall k | k in attrs ensures !LatencyLike(k) { assert LatencyLike(k) ==> IntLike(k); }
  }

  lemma {:induction false} LabelsAreTexts(attrs: Attributes, labels: Labels)
    requires AllTexts(attrs)
    ensures AllTexts(WithTexts(attrs, labels))
    decreases |labels|
  {
    if labels != [] { LabelsAreTexts(attrs, labels[..|labels| - 1]); }
  }

  lemma BaseHasNoLatency(s: Service, c: Correlation, metadata: Metadata)
    ensures NoLatency(BaseAttributes(s, c, metadata))
  {
    QuietBase(s, c, metadata);
    LabelsAreTexts(map[], ServiceLabels(s));
    LabelsAreTexts(WithTexts(map[], ServiceLabels(s)), CorrelationLabels(c));
    TextUnion(WithTexts(WithTexts(map[], ServiceLabels(s)), CorrelationLabels(c)), MetadataAttributes(metadata));
    QuietTextsHaveNoLatency(BaseAttributes(s, c, metadata));
  }

  lemma TextUnion(a: Attributes, b: Attributes)
    requires AllTexts(a) && AllTexts(b)
    ensures AllTexts(a + b)
  {
  }

  lemma CaptureHasNoLatency(prefix: string, c: Captured)
    requires Under(prefix, c) && (prefix == REQUEST || prefix == RESPONSE)
    ensures NoLatency(c.attributes)
  {
    QuietCapture(prefix, c);
    QuietTextsHaveNoLatency(c.attributes);
  }

  lemma OtherKeys()
    ensures !LatencyLike("genai.provider") && !LatencyLike("genai.model") && !LatencyLike("genai.retry.attempt")
  {
  }

  lemma NoLatencyUnion(a: Attributes, b: Attributes)
    requires NoLatency(a) && NoLatency(b)
    ensures NoLatency(a + b)
  {
  }

  lemma NoLatencyText(attrs: Attributes, key: string, value: string)
    requires NoLatency(attrs) && !LatencyLike(key)
    ensures NoLatency(WithText(attrs, key, value))
  {
  }

  lemma NoLatencyCount(attrs: Attributes, key: string, n: int)
    requires NoLatency(attrs) && !LatencyLike(key)
    ensures NoLatency(attrs[key := Int64(n)])
  {
  }

  lemma NamedHasNoLatency(base: Attributes, o: Opening)
    requires NoLatency(base)
    ensures NoLatency(WithRetry(WithNames(base, o.provider, o.model), o.retryAttempt))
  {
    OtherKeys();
    NoLatencyText(base, "genai.provider", o.provider);
    NoLatencyText(WithText(base, "genai.provider", o.provider), "genai.model", o.model);
    NoLatencyCount(WithNames(base, o.provider, o.model), "genai.retry.attempt", o.retryAttempt);
  }

  lemma StartHasNoLatency(o: Opening)
    requires ProperOpening(o)
    ensures NoLatency(StartAttributes(o))
  {
    var base := BaseAttributes(o.service, o.corr, o.metadata);
    BaseHasNoLatency(o.service, o.corr, o.metadata);
    NamedHasNoLatency(base, o);
    CaptureHasNoLatency(REQUEST, o.captured);
    NoLatencyUnion(WithRetry(WithNames(base, o.provider, o.model), o.retryAttempt), o.captured.attributes);
  }

  // ----- The latency in the exported attributes.

  predicate SameAt(a: Attributes, b: Attributes, key: string) {
    (key in a <==> key in b) && (key in a ==> a[key] == b[key])
  }

  lemma {:induction false} CountsKeep(attrs: Attributes, counts: Counts, key: string)
    requires forall i :: 0 <= i < |counts| ==> counts[i].0 != key
    ensures SameAt(attrs, WithCounts(attrs, counts), key)
    decreases |counts|
  {
    if counts != [] { CountsKeep(attrs, counts[..|counts| - 1], key); }
  }

  lemma UsageIsNoLatency(u: Usage)
    ensures forall i :: 0 <= i < |UsageCounts(u)| ==> UsageCounts(u)[i].0 != FIRST_TOKEN
  {
    FirstTokenKey();
    forall i | 0 <= i < |UsageCounts(u)| ensures !LatencyLike(UsageCounts(u)[i].0) {
    }
  }

  lemma UnionKeeps(a: Attributes, b: Attributes, key: string)
    requires NoLatency(b) && LatencyLike(key)
    ensures SameAt(a, a + b, key)
  {
  }

  /** The attribute is there exactly when a first token was seen, with its latency. */
  lemma FinalLatency(h: Handle, p: Progress, call: Call, attrs: Attributes)
    requires NoLatency(h.attributes) && Proper(call) && Terminal(call) && attrs == FinalAttributes(h, p, call)
    ensures FIRST_TOKEN in attrs <==> p.firstTokenEmitted
    ensures p.firstTokenEmitted ==> attrs[FIRST_TOKEN] == Int64(p.firstTokenMs)
  {
    var key, total := FIRST_TOKEN, "genai.latency.total_ms";
    FirstTokenKey();
    var a := h.attributes + MetadataAttributes(call.metadata);
    QuietMetadata(call.metadata);
    QuietTextsHaveNoLatency(MetadataAttributes(call.metadata));
    NoLatencyUnion(h.attributes, MetadataAttributes(call.metadata));
    var b := a[total := Int64(EndTime(h, call).Sub(h.start) / NANOS_PER_MS)];
    var c := if p.firstTokenEmitted then b[key := Int64(p.firstTokenMs)] else b;
    UsageIsNoLatency(call.usage);
    CountsKeep(c, UsageCounts(call.usage), key);
    CaptureHasNoLatency(RESPONSE, call.captured);
    UnionKeeps(WithCounts(c, UsageCounts(call.usage)), call.captured.attributes, key);
    if call.Error? { FailureWrites(EndAttributes(h, p, call), FailureOf(call).value, call.canceled, key); }
  }

  // ----- The latency of a run.

  /** The latency kept is that of the first-token call that adds an event. */
  lemma {:induction false} RunKeepsLatency(event: Call -> Observation, ms: Call -> int, calls: seq<Call>)
    requires NoTerminal(calls)
    ensures var p := Run(event, ms, FRESH, calls);
            forall c :: c in Adding(calls) && c.FirstToken? ==> p.firstTokenEmitted && p.firstTokenMs == ms(c)
  {
    if calls != [] {
      var n := |calls| - 1;
      RunKeepsLatency(event, ms, calls[..n]);
      RunCollects(event, ms, calls[..n]);
      HasFirstTokenSnoc(calls[..n], calls[n]);
      AddingLaws(calls[..n]);
      assert calls[..n] + [calls[n]] == calls && !Terminal(calls[n]);
    }
  }

  lemma FirstTokenEventHas(h: Handle, call: Call, o: Observation)
    requires call.FirstToken? && o == EventOf(h, call)
    ensures FIRST_TOKEN in o.attributes && o.attributes[FIRST_TOKEN] == Int64(FirstTokenMs(h, call))
  {
  }

  lemma EndKeepsLatency(event: Call -> Observation, ms: Call -> int, p: Progress, call: Call)
    requires Terminal(call)
    ensures var last := Advance(event, ms, p, call).0;
            last.firstTokenEmitted == p.firstTokenEmitted && last.firstTokenMs == p.firstTokenMs
  {
  }

  lemma ExportedLatency(h: Handle, calls: seq<Call>, k: nat, p: Progress, attrs: Attributes)
    requires NoLatency(h.attributes) && FirstTerminal(calls, k) && Proper(calls[k])
    requires p == Run(EventMaker(h), Timer(h), FRESH, calls[..k])
    requires ExportAt(h, FRESH, calls, k).Some? && attrs == ExportAt(h, FRESH, calls, k).value.attributes
    ensures FIRST_TOKEN in attrs <==> HasFirstToken(calls[..k])
    ensures FIRST_TOKEN in attrs ==> attrs[FIRST_TOKEN] == Int64(p.firstTokenMs)
  {
    RunCollects(EventMaker(h), Timer(h), calls[..k]);
    EndKeepsLatency(EventMaker(h), Timer(h), p, calls[k]);
    FinalLatency(h, Step(h, p, calls[k]).0, calls[k], attrs);
  }

  /** Over any run: the exported span has a first-token latency exactly when there was a
      first-token call before the end, and it is the one in the first-token event. */
  lemma LatencyAgrees(o: Opening, calls: seq<Call>, k: nat, h: Handle, attrs: Attributes, c: Call, event: Attributes)
    requires ProperOpening(o) && h == StartStream(o).0 && FirstTerminal(calls, k) && Proper(calls[k])
    requires ExportAt(h, FRESH, calls, k).Some? && attrs == ExportAt(h, FRESH, calls, k).value.attributes
    requires c in Adding(calls[..k]) && c.FirstToken? ==> event == EventOf(h, c).attributes
    ensures FIRST_TOKEN in attrs <==> HasFirstToken(calls[..k])
    ensures c in Adding(calls[..k]) && c.FirstToken? ==>
              FIRST_TOKEN in attrs && FIRST_TOKEN in event && attrs[FIRST_TOKEN] == event[FIRST_TOKEN]
  {
    var p := Run(EventMaker(h), Timer(h), FRESH, calls[..k]);
    StartHasNoLatency(o);
    ExportedLatency(h, calls, k, p, attrs);
    RunKeepsLatency(EventMaker(h), Timer(h), calls[..k]);
    RunCollects(EventMaker(h), Timer(h), calls[..k]);
    if c in Adding(calls[..k]) && c.FirstToken? { FirstTokenEventHas(h, c, EventOf(h, c)); }
  }
}

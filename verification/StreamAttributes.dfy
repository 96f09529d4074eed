/** What the attributes of an exported stream and of its events hold, key by key. */
module StreamAttributes {
  import opened Model
  import opened Streams
  import opened StreamRuns
  import opened StreamSchema

  function At(attrs: Attributes, key: string): Option<Value> { if key in attrs then Some(attrs[key]) else None }

  // ----- Who writes a key, told by a few of its characters.

  datatype Area =
    | Unwritten | OfMetadata | OfService | OfCorrelation | OfError | OfNames | OfUsage | OfLatency | OfRetry
    | OfRequest | OfResponse | OfIndex | OfChunk | OfReason

  function GenaiArea(k: string): Area
    requires |k| > 8
  {
    if k[6] == 'p' || k[6] == 'm' then OfNames
    else if k[6] == 'u' then OfUsage
    else if k[6] == 'l' then OfLatency
    else if k[6] == 'r' && k[8] == 't' then OfRetry
    else if k[6] == 'r' && k[8] == 'q' then OfRequest
    else if k[6] == 'r' && k[8] == 's' then OfResponse
    else Unwritten
  }

  function AreaOf(k: string): Area {
    if |k| <= 8 then Unwritten
    else if k[0] == 'm' then OfMetadata
    else if k[0] == 'e' then OfError
    else if k[0] == 'g' then GenaiArea(k)
    else if k[0] == 'c' then (if k[1] == 'a' then OfReason else OfCorrelation)
    else if k[0] == 's' && k[1] == 'e' then OfService
    else if k[0] == 's' && |k| > 13 && k[13] == 'i' then OfIndex
    else if k[0] == 's' && |k| > 13 && k[13] == 's' then OfChunk
    else Unwritten
  }

  /** All the keys belong to one writer. */
  ghost predicate Within(attrs: Attributes, area: Area) { forall k :: k in attrs ==> AreaOf(k) == area }

  lemma UnionAt(a: Attributes, b: Attributes, key: string)
    ensures At(a + b, key) == if key in b then At(b, key) else At(a, key)
  {
  }

  lemma OtherWriter(a: Attributes, b: Attributes, area: Area, key: string)
    requires Within(b, area)
    ensures AreaOf(key) != area ==> At(a + b, key) == At(a, key)
  {
  }

  // ----- The writers.

  lemma MetadataWithin(metadata: Metadata)
    ensures Within(MetadataAttributes(metadata), OfMetadata)
  {
    forall k | k in MetadataAttributes(metadata) ensures AreaOf(k) == OfMetadata {
      var name :| name in metadata && metadata[name] != "" && k == MetadataKey(name);
      assert k[0] == 'm';
    }
  }

  lemma MetadataAt(metadata: Metadata, name: string)
    ensures At(MetadataAttributes(metadata), "metadata." + name)
         == if name in metadata && metadata[name] != "" then Some(Str(metadata[name])) else None
  {
    MetadataKeysDiffer();
    var key := "metadata." + name;
    assert key == MetadataKey(name);
    if key in MetadataAttributes(metadata) {
      var other :| other in metadata && metadata[other] != "" && key == MetadataKey(other);
      assert other == name;
    }
  }

  ghost predicate LabelsWithin(labels: Labels, area: Area) {
    forall i :: 0 <= i < |labels| ==> AreaOf(labels[i].0) == area
  }

  predicate DistinctLabels(labels: Labels) {
    forall i, j :: 0 <= i < j < |labels| ==> labels[i].0 != labels[j].0
  }

  lemma {:induction false} TextsWithin(attrs: Attributes, labels: Labels, area: Area, key: string)
    requires LabelsWithin(labels, area)
    ensures AreaOf(key) != area ==> At(WithTexts(attrs, labels), key) == At(attrs, key)
    decreases |labels|
  {
    if labels != [] { TextsWithin(attrs, labels[..|labels| - 1], area, key); }
  }

  lemma {:induction false} NoTextElsewhere(attrs: Attributes, labels: Labels, key: string)
    requires forall i :: 0 <= i < |labels| ==> labels[i].0 != key
    ensures At(WithTexts(attrs, labels), key) == At(attrs, key)
    decreases |labels|
  {
    if labels != [] { NoTextElsewhere(attrs, labels[..|labels| - 1], key); }
  }

  /** Each label is there exactly when its text is not empty, with that text. */
  lemma {:induction false} LabelAt(attrs: Attributes, labels: Labels, i: nat)
    requires i < |labels| && DistinctLabels(labels) && labels[i].0 !in attrs
    ensures At(WithTexts(attrs, labels), labels[i].0)
         == if labels[i].1 == "" then None else Some(Str(labels[i].1))
    decreases |labels|
  {
    var n := |labels| - 1;
    if i < n {
      LabelAt(attrs, labels[..n], i);
    } else {
      NoTextElsewhere(attrs, labels[..n], labels[n].0);
    }
  }

  lemma ServiceKeys(s: Service)
    ensures LabelsWithin(ServiceLabels(s), OfService) && DistinctLabels(ServiceLabels(s))
  {
    assert |"service.name"| == 12 && |"service.env"| == 11 && |"service.version"| == 15;
  }

  lemma CorrelationKeys(c: Correlation)
    ensures LabelsWithin(CorrelationLabels(c), OfCorrelation) && DistinctLabels(CorrelationLabels(c))
  {
    assert |"correlation.session_id"| == 22 && |"correlation.run_id"| == 18 && |"correlation.agent_id"| == 20;
    assert |"correlation.assistant_message_id"| == 32 && |"correlation.thread_id"| == 21;
    assert |"correlation.agui_run_id"| == 23 && |"correlation.tool_call_id"| == 24;
  }

  /** The attributes every observation begins with, by writer. */
  lemma BaseAt(s: Service, c: Correlation, metadata: Metadata, key: string)
    ensures At(BaseAttributes(s, c, metadata), key)
         == match AreaOf(key)
            case OfMetadata => At(MetadataAttributes(metadata), key)
            case OfService => At(WithTexts(map[], ServiceLabels(s)), key)
            case OfCorrelation => At(WithTexts(map[], CorrelationLabels(c)), key)
            case _ => None
  {
    var service := WithTexts(map[], ServiceLabels(s));
    ServiceKeys(s);
    CorrelationKeys(c);
    TextsWithin(map[], ServiceLabels(s), OfService, key);
    TextsWithin(service, CorrelationLabels(c), OfCorrelation, key);
    MetadataWithin(metadata);
    OtherWriter(WithTexts(service, CorrelationLabels(c)), MetadataAttributes(metadata), OfMetadata, key);
    UnionAt(WithTexts(service, CorrelationLabels(c)), MetadataAttributes(metadata), key);
    if AreaOf(key) == OfCorrelation { LabelsAt(service, CorrelationLabels(c), key); }
  }

  /** What labels write does not depend on what was there, for a key that was not. */
  lemma {:induction false} LabelsAt(attrs: Attributes, labels: Labels, key: string)
    requires key !in attrs
    ensures At(WithTexts(attrs, labels), key) == At(WithTexts(map[], labels), key)
    decreases |labels|
  {
    if labels != [] { LabelsAt(attrs, labels[..|labels| - 1], key); }
  }

  lemma CapturedWithin(prefix: string, c: Captured, area: Area)
    requires Under(prefix, c)
    requires (prefix == REQUEST && area == OfRequest) || (prefix == RESPONSE && area == OfResponse)
          || (prefix == CHUNK && area == OfChunk)
    ensures Within(c.attributes, area)
  {
    forall k | k in c.attributes ensures AreaOf(k) == area {
      assert |prefix| > 13;
      assert k[0] == prefix[0] && k[1] == prefix[1] && k[6] == prefix[6] && k[8] == prefix[8] && k[13] == prefix[13];
    }
  }

  // ----- The attributes of a handle.

  lemma NameAreas()
    ensures AreaOf("genai.provider") == OfNames && AreaOf("genai.model") == OfNames
    ensures AreaOf("genai.retry.attempt") == OfRetry && "genai.provider" != "genai.model"
  {
    assert |"genai.provider"| == 14 && |"genai.model"| == 11;
  }

  lemma NamesAt(attrs: Attributes, o: Opening, key: string)
    requires AreaOf(key) == OfNames ==> key !in attrs
    ensures At(WithNames(attrs, o.provider, o.model), key) == if AreaOf(key)
         == OfNames then At(WithNames(map[], o.provider, o.model), key) else At(attrs, key)
  {
    NameAreas();
  }

  lemma RetriedAt(attrs: Attributes, n: int, key: string)
    requires AreaOf(key) == OfRetry ==> key !in attrs
    ensures At(WithRetry(attrs, n), key) == if AreaOf(key)
         == OfRetry then At(WithRetry(map[], n), key) else At(attrs, key)
  {
    NameAreas();
  }

  /** The attributes a handle begins with, by writer. */
  lemma StartAt(o: Opening, key: string)
    requires Under(REQUEST, o.captured)
    ensures At(StartAttributes(o), key)
         == match AreaOf(key)
            case OfNames => At(WithNames(map[], o.provider, o.model), key)
            case OfRetry => At(WithRetry(map[], o.retryAttempt), key)
            case OfRequest => At(o.captured.attributes, key)
            case _ => At(BaseAttributes(o.service, o.corr, o.metadata), key)
  {
    var base := BaseAttributes(o.service, o.corr, o.metadata);
    BaseAt(o.service, o.corr, o.metadata, key);
    NamesAt(base, o, key);
    RetriedAt(WithNames(base, o.provider, o.model), o.retryAttempt, key);
    CapturedWithin(REQUEST, o.captured, OfRequest);
    OtherWriter(WithRetry(WithNames(base, o.provider, o.model), o.retryAttempt), o.captured.attributes, OfRequest, key);
    UnionAt(WithRetry(WithNames(base, o.provider, o.model), o.retryAttempt), o.captured.attributes, key);
  }

  // ----- The attributes at the end.

  const TOTAL := "genai.latency.total_ms"
  const FIRST := "genai.latency.first_token_ms"

  function Latencies(attrs: Attributes, total: int, first: Option<int>): Attributes {
    var b := attrs[TOTAL := Int64(total)];
    if first.Some? then b[FIRST := Int64(first.value)] else b
  }

  lemma LatencyAreas()
    ensures AreaOf(TOTAL) == OfLatency && AreaOf(FIRST) == OfLatency && TOTAL != FIRST
  {
    assert |TOTAL| == 22 && |FIRST| == 28;
  }

  lemma LatenciesAt(attrs: Attributes, total: int, first: Option<int>, key: string)
    requires AreaOf(key) == OfLatency ==> key !in attrs
    ensures At(Latencies(attrs, total, first), key)
         == if AreaOf(key) == OfLatency then At(Latencies(map[], total, first), key) else At(attrs, key)
  {
    LatencyAreas();
  }

  predicate CountsWithin(counts: Counts) { forall i :: 0 <= i < |counts| ==> AreaOf(counts[i].0) == OfUsage }

  lemma {:induction false} CountsAt(attrs: Attributes, counts: Counts, key: string)
    requires CountsWithin(counts) && (AreaOf(key) == OfUsage ==> key !in attrs)
    ensures At(WithCounts(attrs, counts), key)
         == if AreaOf(key) == OfUsage then At(WithCounts(map[], counts), key) else At(attrs, key)
    decreases |counts|
  {
    if counts != [] { CountsAt(attrs, counts[..|counts| - 1], key); }
  }

  lemma {:induction false} CountsElsewhere(attrs: Attributes, counts: Counts, key: string)
    requires forall i :: 0 <= i < |counts| ==> counts[i].0 != key
    ensures At(WithCounts(attrs, counts), key) == At(attrs, key)
    decreases |counts|
  {
    if counts != [] { CountsElsewhere(attrs, counts[..|counts| - 1], key); }
  }

  /** Each count is there exactly when it is known or not zero, with its tokens. */
  lemma {:induction false} CountAt(attrs: Attributes, counts: Counts, i: nat)
    requires i < |counts| && counts[i].0 !in attrs
    requires forall a, b :: 0 <= a < b < |counts| ==> counts[a].0 != counts[b].0
    ensures var count := counts[i].1;
            At(WithCounts(attrs, counts), counts[i].0)
            == if count.known || count.tokens != 0 then Some(Int64(count.tokens)) else None
    decreases |counts|
  {
    var n := |counts| - 1;
    if i < n {
      CountAt(attrs, counts[..n], i);
    } else {
      CountsElsewhere(attrs, counts[..n], counts[n].0);
    }
  }

  lemma UsageAreas(u: Usage)
    ensures CountsWithin(UsageCounts(u))
    ensures forall a, b :: 0 <= a < b < |UsageCounts(u)| ==> UsageCounts(u)[a].0 != UsageCounts(u)[b].0
  {
    assert "genai.usage.input_tokens"[12] == 'i' && "genai.usage.output_tokens"[12] == 'o';
    assert "genai.usage.total_tokens"[12] == 't' && "genai.usage.reasoning_tokens"[12] == 'r';
    assert "genai.usage.cached_input_tokens"[12] == 'c';
  }

  lemma FailureAreas(e: Failure, canceled: bool)
    ensures Within(WithFailure(map[], e, canceled), OfError)
  {
  }

  lemma FailureAt(attrs: Attributes, e: Failure, canceled: bool, key: string)
    requires AreaOf(key) == OfError ==> key !in attrs
    ensures At(WithFailure(attrs, e, canceled), key)
         == if AreaOf(key) == OfError then At(WithFailure(map[], e, canceled), key) else At(attrs, key)
  {
    FailureAreas(e, canceled);
  }

  function TotalMs(h: Handle, call: Call): int { EndTime(h, call).Sub(h.start) / NANOS_PER_MS }

  lemma EndIs(h: Handle, p: Progress, call: Call)
    requires Terminal(call)
    ensures var a := h.attributes + MetadataAttributes(call.metadata);
            EndAttributes(h, p, call)
            == WithCounts(Latencies(a, TotalMs(h, call), if p.firstTokenEmitted then Some(p.firstTokenMs) else None),
                          UsageCounts(call.usage)) + call.captured.attributes
  {
  }

  function FirstLatency(p: Progress): Option<int> { if p.firstTokenEmitted then Some(p.firstTokenMs) else None }

  lemma StartElsewhere(o: Opening, key: string)
    requires Under(REQUEST, o.captured)
    ensures AreaOf(key) in {OfLatency, OfUsage, OfResponse, OfError, Unwritten, OfIndex, OfChunk, OfReason} ==>
              key !in StartAttributes(o)
    ensures AreaOf(key) == OfMetadata ==> At(StartAttributes(o), key) == At(MetadataAttributes(o.metadata), key)
  {
    StartAt(o, key);
    BaseAt(o.service, o.corr, o.metadata, key);
  }

  lemma EndAt(o: Opening, h: Handle, p: Progress, call: Call, key: string)
    requires Under(REQUEST, o.captured) && h.attributes == StartAttributes(o) && Terminal(call) && Proper(call)
    ensures At(EndAttributes(h, p, call), key)
         == match AreaOf(key)
            case OfMetadata => At(MetadataAttributes(o.metadata) + MetadataAttributes(call.metadata), key)
            case OfLatency => At(Latencies(map[], TotalMs(h, call), FirstLatency(p)), key)
            case OfUsage => At(WithCounts(map[], UsageCounts(call.usage)), key)
            case OfResponse => At(call.captured.attributes, key)
            case _ => At(StartAttributes(o), key)
  {
    var a := h.attributes + MetadataAttributes(call.metadata);
    var b := Latencies(a, TotalMs(h, call), FirstLatency(p));
    var c := WithCounts(b, UsageCounts(call.usage));
    EndIs(h, p, call);
    StartElsewhere(o, key);
    MetadataWithin(call.metadata);
    OtherWriter(h.attributes, MetadataAttributes(call.metadata), OfMetadata, key);
    UnionAt(h.attributes, MetadataAttributes(call.metadata), key);
    LatenciesAt(a, TotalMs(h, call), FirstLatency(p), key);
    UsageAreas(call.usage);
    CountsAt(b, UsageCounts(call.usage), key);
    CapturedWithin(RESPONSE, call.captured, OfResponse);
    OtherWriter(c, call.captured.attributes, OfResponse, key);
    UnionAt(c, call.captured.attributes, key);
  }

  /** The attributes a stream exports, by writer. Nobody writes any other key. */
  lemma FinalAt(o: Opening, h: Handle, p: Progress, call: Call, key: string)
    requires Under(REQUEST, o.captured) && h.attributes == StartAttributes(o) && Terminal(call) && Proper(call)
    ensures At(FinalAttributes(h, p, call), key)
         == if AreaOf(key) == OfError && call.Error? then
              At(WithFailure(map[], FailureOf(call).value, call.canceled), key)
            else At(EndAttributes(h, p, call), key)
    ensures AreaOf(key) == OfError ==> key !in EndAttributes(h, p, call)
  {
    EndAt(o, h, p, call, key);
    StartElsewhere(o, key);
    if call.Error? { FailureAt(EndAttributes(h, p, call), FailureOf(call).value, call.canceled, key); }
  }

  // ----- What each key holds, over any run.

  /** What the k-th call exports. */
  ghost predicate Exports(o: Opening, calls: seq<Call>, k: nat, attrs: Attributes) {
    && ProperOpening(o) && FirstTerminal(calls, k) && Proper(calls[k])
    && var out := ExportAt(StartStream(o).0, FRESH, calls, k);
       out.Some? && attrs == out.value.attributes
  }

  lemma ExportsFinal(o: Opening, calls: seq<Call>, k: nat, attrs: Attributes) returns (p: Progress)
    requires Exports(o, calls, k, attrs)
    ensures attrs == FinalAttributes(StartStream(o).0, p, calls[k]) && StartStream(o).0.attributes == StartAttributes(o)
  {
    var h := StartStream(o).0;
    p := Step(h, Run(EventMaker(h), Timer(h), FRESH, calls[..k]), calls[k]).0;
  }

  /** In one writer's area the attributes are those of b. */
  ghost predicate Reads(attrs: Attributes, b: Attributes, area: Area) {
    forall key :: AreaOf(key) == area ==> At(attrs, key) == At(b, key)
  }

  lemma UsageReads(o: Opening, calls: seq<Call>, k: nat, attrs: Attributes)
    requires Exports(o, calls, k, attrs)
    ensures Reads(attrs, WithCounts(map[], UsageCounts(calls[k].usage)), OfUsage)
  {
    var p := ExportsFinal(o, calls, k, attrs);
    forall key | AreaOf(key) == OfUsage
      ensures At(attrs, key) == At(WithCounts(map[], UsageCounts(calls[k].usage)), key)
    {
      FinalAt(o, StartStream(o).0, p, calls[k], key);
      EndAt(o, StartStream(o).0, p, calls[k], key);
    }
  }

  lemma LatencyReads(o: Opening, calls: seq<Call>, k: nat, attrs: Attributes) returns (first: Option<int>)
    requires Exports(o, calls, k, attrs)
    ensures Reads(attrs, Latencies(map[], TotalMs(StartStream(o).0, calls[k]), first), OfLatency)
  {
    var h := StartStream(o).0;
    var p := ExportsFinal(o, calls, k, attrs);
    first := FirstLatency(p);
    forall key | AreaOf(key) == OfLatency
      ensures At(attrs, key) == At(Latencies(map[], TotalMs(h, calls[k]), first), key)
    {
      FinalAt(o, h, p, calls[k], key);
      EndAt(o, h, p, calls[k], key);
    }
  }

  lemma StartReads(o: Opening, calls: seq<Call>, k: nat, attrs: Attributes, area: Area)
    requires Exports(o, calls, k, attrs) && area in {OfNames, OfRetry, OfService, OfCorrelation, OfRequest}
    ensures Reads(attrs, StartAttributes(o), area)
  {
    var p := ExportsFinal(o, calls, k, attrs);
    forall key | AreaOf(key) == area ensures At(attrs, key) == At(StartAttributes(o), key) {
      FinalAt(o, StartStream(o).0, p, calls[k], key);
      EndAt(o, StartStream(o).0, p, calls[k], key);
    }
  }

  lemma MetadataReads(o: Opening, calls: seq<Call>, k: nat, attrs: Attributes)
    requires Exports(o, calls, k, attrs)
    ensures Reads(attrs, MetadataAttributes(o.metadata) + MetadataAttributes(calls[k].metadata), OfMetadata)
  {
    var p := ExportsFinal(o, calls, k, attrs);
    var both := MetadataAttributes(o.metadata) + MetadataAttributes(calls[k].metadata);
    forall key | AreaOf(key) == OfMetadata ensures At(attrs, key) == At(both, key) {
      FinalAt(o, StartStream(o).0, p, calls[k], key);
      EndAt(o, StartStream(o).0, p, calls[k], key);
    }
  }

  lemma ResponseReads(o: Opening, calls: seq<Call>, k: nat, attrs: Attributes)
    requires Exports(o, calls, k, attrs)
    ensures Reads(attrs, calls[k].captured.attributes, OfResponse)
  {
    var p := ExportsFinal(o, calls, k, attrs);
    forall key | AreaOf(key) == OfResponse ensures At(attrs, key) == At(calls[k].captured.attributes, key) {
      FinalAt(o, StartStream(o).0, p, calls[k], key);
      EndAt(o, StartStream(o).0, p, calls[k], key);
    }
  }

  function ErrorWritten(call: Call): Attributes {
    if call.Error? then WithFailure(map[], FailureOf(call).value, call.canceled) else map[]
  }

  lemma ErrorReads(o: Opening, calls: seq<Call>, k: nat, attrs: Attributes)
    requires Exports(o, calls, k, attrs)
    ensures Reads(attrs, ErrorWritten(calls[k]), OfError)
  {
    var p := ExportsFinal(o, calls, k, attrs);
    forall key | AreaOf(key) == OfError ensures At(attrs, key) == At(ErrorWritten(calls[k]), key) {
      FinalAt(o, StartStream(o).0, p, calls[k], key);
    }
  }

  /** Nothing else is exported. */
  lemma NothingElseExported(o: Opening, calls: seq<Call>, k: nat, attrs: Attributes, key: string)
    requires Exports(o, calls, k, attrs) && AreaOf(key) in {Unwritten, OfIndex, OfChunk, OfReason}
    ensures key !in attrs
  {
    var p := ExportsFinal(o, calls, k, attrs);
    FinalAt(o, StartStream(o).0, p, calls[k], key);
    EndAt(o, StartStream(o).0, p, calls[k], key);
    StartElsewhere(o, key);
  }

  // ----- Token counts.

  /** The count, or nothing when it is neither known nor different from zero. */
  function Counted(count: Count): Option<Value> {
    if count.known || count.tokens != 0 then Some(Int64(count.tokens)) else None
  }

  ghost predicate UsageHeld(attrs: Attributes, usage: Usage) {
    && At(attrs, "genai.usage.input_tokens") == Counted(usage.input)
    && At(attrs, "genai.usage.output_tokens") == Counted(usage.output)
    && At(attrs, "genai.usage.total_tokens") == Counted(usage.total)
    && At(attrs, "genai.usage.reasoning_tokens") == Counted(usage.reasoning)
    && At(attrs, "genai.usage.cached_input_tokens") == Counted(usage.cachedInput)
  }

  lemma CountHeld(attrs: Attributes, usage: Usage, i: nat, key: string, count: Count)
    requires Reads(attrs, WithCounts(map[], UsageCounts(usage)), OfUsage)
    requires i < 5 && UsageCounts(usage)[i] == (key, count)
    ensures At(attrs, key) == Counted(count)
  {
    UsageAreas(usage);
    CountAt(map[], UsageCounts(usage), i);
  }

  lemma AllCountsHeld(attrs: Attributes, usage: Usage)
    requires Reads(attrs, WithCounts(map[], UsageCounts(usage)), OfUsage)
    ensures UsageHeld(attrs, usage)
  {
    CountHeld(attrs, usage, 0, "genai.usage.input_tokens", usage.input);
    CountHeld(attrs, usage, 1, "genai.usage.output_tokens", usage.output);
    CountHeld(attrs, usage, 2, "genai.usage.total_tokens", usage.total);
    CountHeld(attrs, usage, 3, "genai.usage.reasoning_tokens", usage.reasoning);
    CountHeld(attrs, usage, 4, "genai.usage.cached_input_tokens", usage.cachedInput);
  }

  /** Over any run, each of the five token counts is exported exactly when it is known or not
      zero, under its own key, with its own value. */
  lemma UsageExported(o: Opening, calls: seq<Call>, k: nat, attrs: Attributes)
    requires Exports(o, calls, k, attrs)
    ensures UsageHeld(attrs, calls[k].usage)
  {
    UsageReads(o, calls, k, attrs);
    AllCountsHeld(attrs, calls[k].usage);
  }

  // ----- Latency.

  /** Milliseconds from one instant to another that is not before it; an int64 saturates. */
  function Millis(from: int, to: int): int {
    if to <= from then 0 else if to - from <= MAX_INT64 then (to - from) / 1000000 else MAX_INT64 / 1000000
  }

  /** The instant of a time the caller gives, or now for the zero time. */
  function Instant(at: Time, now: Time): int { if at.at == 0 then now.at else at.at }

  lemma TotalIs(h: Handle, call: Call, from: int, to: int)
    requires h.start.at == from && ObservationTime(call.at, call.now).at == to
    ensures TotalMs(h, call) == Millis(from, to)
  {
  }

  lemma StartInstant(o: Opening)
    ensures StartStream(o).0.start.at == Instant(o.at, o.now)
  {
  }

  lemma TotalHeld(attrs: Attributes, total: int, first: Option<int>)
    requires Reads(attrs, Latencies(map[], total, first), OfLatency)
    ensures At(attrs, TOTAL) == Some(Int64(total))
  {
    LatencyAreas();
  }

  /** Over any run, the total latency is the milliseconds from the start to the end, which is when
      the terminal call says or at the start if that is later. */
  lemma TotalExported(o: Opening, calls: seq<Call>, k: nat, attrs: Attributes)
    requires Exports(o, calls, k, attrs)
    ensures At(attrs, TOTAL) == Some(Int64(Millis(Instant(o.at, o.now), Instant(calls[k].at, calls[k].now))))
  {
    var first := LatencyReads(o, calls, k, attrs);
    StartInstant(o);
    TotalIs(StartStream(o).0, calls[k], Instant(o.at, o.now), Instant(calls[k].at, calls[k].now));
    TotalHeld(attrs, TotalMs(StartStream(o).0, calls[k]), first);
  }

  // ----- Names and labels.

  lemma NamesHeld(attrs: Attributes, provider: string, model: string)
    requires Reads(attrs, WithNames(map[], provider, model), OfNames) && provider != "" && model != ""
    ensures At(attrs, "genai.provider") == Some(Str(provider)) && At(attrs, "genai.model") == Some(Str(model))
  {
    NameAreas();
  }

  lemma RetryHeld(attrs: Attributes, n: int)
    requires Reads(attrs, WithRetry(map[], n), OfRetry)
    ensures At(attrs, "genai.retry.attempt") == if n > 0 then Some(Int64(n)) else None
  {
    NameAreas();
  }

  lemma StartNames(o: Opening, attrs: Attributes)
    requires Under(REQUEST, o.captured)
    requires Reads(attrs, StartAttributes(o), OfNames) && Reads(attrs, StartAttributes(o), OfRetry)
    ensures Reads(attrs, WithNames(map[], o.provider, o.model), OfNames)
    ensures Reads(attrs, WithRetry(map[], o.retryAttempt), OfRetry)
  {
    forall key | AreaOf(key) == OfNames || AreaOf(key) == OfRetry
      ensures At(attrs, key) == if AreaOf(key) == OfNames then At(WithNames(map[], o.provider, o.model), key)
                                else At(WithRetry(map[], o.retryAttempt), key)
    {
      StartAt(o, key);
    }
  }

  /** Over any run, the provider, the model, and the retry attempt when it is positive. */
  lemma NamesExported(o: Opening, calls: seq<Call>, k: nat, attrs: Attributes)
    requires Exports(o, calls, k, attrs)
    ensures At(attrs, "genai.provider") == Some(Str(o.provider)) && At(attrs, "genai.model") == Some(Str(o.model))
    ensures At(attrs, "genai.retry.attempt") == if o.retryAttempt > 0 then Some(Int64(o.retryAttempt)) else None
  {
    StartReads(o, calls, k, attrs, OfNames);
    StartReads(o, calls, k, attrs, OfRetry);
    StartNames(o, attrs);
    NamesHeld(attrs, o.provider, o.model);
    RetryHeld(attrs, o.retryAttempt);
  }

  /** The text, or nothing when it is empty. */
  function Written(text: string): Option<Value> { if text == "" then None else Some(Str(text)) }

  ghost predicate ServiceHeld(attrs: Attributes, s: Service) {
    && At(attrs, "service.name") == Written(s.name) && At(attrs, "service.env") == Written(s.env)
    && At(attrs, "service.version") == Written(s.version)
  }

  ghost predicate CorrelationHeld(attrs: Attributes, c: Correlation) {
    && At(attrs, "correlation.session_id") == Written(c.session)
    && At(attrs, "correlation.run_id") == Written(c.run) && At(attrs, "correlation.agent_id") == Written(c.agent)
    && At(attrs, "correlation.assistant_message_id") == Written(c.message)
    && At(attrs, "correlation.thread_id") == Written(c.thread)
    && At(attrs, "correlation.agui_run_id") == Written(c.aguiRun)
    && At(attrs, "correlation.tool_call_id") == Written(c.toolCall)
  }

  lemma ServiceTexts(attrs: Attributes, s: Service)
    requires Reads(attrs, WithTexts(map[], ServiceLabels(s)), OfService)
    ensures ServiceHeld(attrs, s)
  {
    ServiceKeys(s);
    LabelAt(map[], ServiceLabels(s), 0);
    LabelAt(map[], ServiceLabels(s), 1);
    LabelAt(map[], ServiceLabels(s), 2);
  }

  lemma LabelHeld(attrs: Attributes, c: Correlation, i: nat, key: string, text: string)
    requires Reads(attrs, WithTexts(map[], CorrelationLabels(c)), OfCorrelation)
    requires i < 7 && CorrelationLabels(c)[i] == (key, text)
    ensures At(attrs, key) == Written(text)
  {
    CorrelationKeys(c);
    LabelAt(map[], CorrelationLabels(c), i);
  }

  lemma CorrelationTexts(attrs: Attributes, c: Correlation)
    requires Reads(attrs, WithTexts(map[], CorrelationLabels(c)), OfCorrelation)
    ensures CorrelationHeld(attrs, c)
  {
    LabelHeld(attrs, c, 0, "correlation.session_id", c.session);
    LabelHeld(attrs, c, 1, "correlation.run_id", c.run);
    LabelHeld(attrs, c, 2, "correlation.agent_id", c.agent);
    LabelHeld(attrs, c, 3, "correlation.assistant_message_id", c.message);
    LabelHeld(attrs, c, 4, "correlation.thread_id", c.thread);
    LabelHeld(attrs, c, 5, "correlation.agui_run_id", c.aguiRun);
    LabelHeld(attrs, c, 6, "correlation.tool_call_id", c.toolCall);
  }

  lemma StartLabels(o: Opening, attrs: Attributes)
    requires Under(REQUEST, o.captured)
    requires Reads(attrs, StartAttributes(o), OfService) && Reads(attrs, StartAttributes(o), OfCorrelation)
    ensures Reads(attrs, WithTexts(map[], ServiceLabels(o.service)), OfService)
    ensures Reads(attrs, WithTexts(map[], CorrelationLabels(o.corr)), OfCorrelation)
  {
    forall key | AreaOf(key) == OfService || AreaOf(key) == OfCorrelation
      ensures At(attrs, key) == if AreaOf(key) == OfService then At(WithTexts(map[], ServiceLabels(o.service)), key)
                                else At(WithTexts(map[], CorrelationLabels(o.corr)), key)
    {
      StartAt(o, key);
      BaseAt(o.service, o.corr, o.metadata, key);
    }
  }

  /** Over any run, the service and the correlation, each text under its own key when it is not empty. */
  lemma LabelsExported(o: Opening, calls: seq<Call>, k: nat, attrs: Attributes)
    requires Exports(o, calls, k, attrs)
    ensures ServiceHeld(attrs, o.service) && CorrelationHeld(attrs, o.corr)
  {
    StartReads(o, calls, k, attrs, OfService);
    StartReads(o, calls, k, attrs, OfCorrelation);
    StartLabels(o, attrs);
    ServiceTexts(attrs, o.service);
    CorrelationTexts(attrs, o.corr);
  }

  // ----- Metadata, summaries and errors.

  function TextIn(metadata: Metadata, name: string): string { if name in metadata then metadata[name] else "" }

  /** Over any run, metadata of the terminal call, and of the opening where the call has none. */
  lemma MetadataExported(o: Opening, calls: seq<Call>, k: nat, attrs: Attributes, name: string)
    requires Exports(o, calls, k, attrs)
    ensures var last, first := TextIn(calls[k].metadata, name), TextIn(o.metadata, name);
            At(attrs, "metadata." + name) == Written(if last != "" then last else first)
  {
    MetadataReads(o, calls, k, attrs);
    MetadataHeld(attrs, o.metadata, calls[k].metadata, name);
  }

  lemma MetadataHeld(attrs: Attributes, first: Metadata, last: Metadata, name: string)
    requires Reads(attrs, MetadataAttributes(first) + MetadataAttributes(last), OfMetadata)
    ensures var text := TextIn(last, name);
            At(attrs, "metadata." + name) == Written(if text != "" then text else TextIn(first, name))
  {
    var key := "metadata." + name;
    assert key[0] == 'm' && |key| > 8;
    MetadataAt(first, name);
    MetadataAt(last, name);
    UnionAt(MetadataAttributes(first), MetadataAttributes(last), key);
  }

  lemma PrefixAreas(key: string)
    ensures REQUEST <= key ==> AreaOf(key) == OfRequest
    ensures RESPONSE <= key ==> AreaOf(key) == OfResponse
  {
    if REQUEST <= key { CapturedWithin(REQUEST, Captured(map[key := Str("")], []), OfRequest); }
    if RESPONSE <= key { CapturedWithin(RESPONSE, Captured(map[key := Str("")], []), OfResponse); }
  }

  /** Over any run, the summaries of the opening and of the terminal call. */
  lemma SummariesExported(o: Opening, calls: seq<Call>, k: nat, attrs: Attributes, key: string)
    requires Exports(o, calls, k, attrs)
    ensures REQUEST <= key ==> At(attrs, key) == At(o.captured.attributes, key)
    ensures RESPONSE <= key ==> At(attrs, key) == At(calls[k].captured.attributes, key)
  {
    PrefixAreas(key);
    StartReads(o, calls, k, attrs, OfRequest);
    StartAt(o, key);
    ResponseReads(o, calls, k, attrs);
  }

  ghost predicate ErrorHeld(attrs: Attributes, operation: Option<Value>, classification: Option<Value>,
                            retryable: Option<Value>, canceled: Option<Value>) {
    && At(attrs, "error.operation") == operation && At(attrs, "error.classification") == classification
    && At(attrs, "error.retryable") == retryable && At(attrs, "error.canceled") == canceled
    && At(attrs, "error.dropped") == None
  }

  lemma ErrorAreas()
    ensures AreaOf("error.operation") == OfError && AreaOf("error.classification") == OfError
    ensures AreaOf("error.retryable") == OfError && AreaOf("error.canceled") == OfError
    ensures AreaOf("error.dropped") == OfError
  {
  }

  lemma ErrorReadsHeld(attrs: Attributes, b: Attributes, operation: Option<Value>, classification: Option<Value>,
                       retryable: Option<Value>, canceled: Option<Value>)
    requires Reads(attrs, b, OfError) && ErrorHeld(b, operation, classification, retryable, canceled)
    ensures ErrorHeld(attrs, operation, classification, retryable, canceled)
  {
    ErrorAreas();
  }

  lemma FailureHeld(e: Failure, canceled: bool)
    requires e.operation != "" && e.classification != "" && !e.dropped
    ensures ErrorHeld(WithFailure(map[], e, canceled), Some(Str(e.operation)), Some(Str(e.classification)),
                      Some(Bool(e.retryable)), if canceled then Some(Bool(true)) else None)
  {
    assert |"error.dropped"| == 13 && |"error.operation"| == 15 && |"error.classification"| == 20;
    assert |"error.retryable"| == 15 && "error.retryable"[6] == 'r' && "error.operation"[6] == 'o';
    assert |"error.canceled"| == 14;
  }

  /** Over any run, the error: what failed and how, whether it may be tried again, and whether it is a
      cancellation; nothing of it after End. */
  lemma ErrorExported(o: Opening, calls: seq<Call>, k: nat, attrs: Attributes)
    requires Exports(o, calls, k, attrs)
    ensures calls[k].End? ==> ErrorHeld(attrs, None, None, None, None)
    ensures calls[k].Error? ==>
              var call := calls[k];
              ErrorHeld(attrs, Some(Str("stream")),
                        Some(Str(if call.classification != "" then call.classification
                                 else if call.canceled then "canceled" else "error")),
                        Some(Bool(call.retryable && !call.canceled)),
                        if call.canceled then Some(Bool(true)) else None)
  {
    ErrorReads(o, calls, k, attrs);
    if calls[k].Error? {
      var e := FailureOf(calls[k]).value;
      FailureHeld(e, calls[k].canceled);
      ErrorReadsHeld(attrs, ErrorWritten(calls[k]), Some(Str("stream")), Some(Str(e.classification)),
                     Some(Bool(e.retryable)), if calls[k].canceled then Some(Bool(true)) else None);
    } else {
      ErrorReadsHeld(attrs, ErrorWritten(calls[k]), None, None, None, None);
    }
  }
}

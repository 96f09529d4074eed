/** Redaction keeps a valid span valid. */
module SchemaPreserved {
  import opened Model
  import opened TidyNames
  import opened Redaction
  import opened RedactionLaws

  // ----- Keys of the schema belong to no redaction class.

  /** Enough to tell the schema's keys from every name and prefix the redaction looks for. */
  predicate Unclassified(k: string) {
    && Tidy(k) && k[|k| - 1] != 'y' && |k| > 5 && NoDoubleM(k)
    && (k[0] == 'g' || k[0] == 'i' || k[0] == 's' || k[0] == 'c'
        || (k[0] == 't' && k[5] != 'i' && k[5] != 'o')
        || (k[0] == 'r' && k[2] != 'a'))
  }

  lemma NotMarked(s: string, marker: string)
    requires |marker| > 4 && marker[3] == 'm' && marker[4] == 'm'
    requires NoDoubleM(s)
    ensures IndexOf(s, marker) == -1
  {
    if IndexOf(s, marker) >= 0 { OccurrenceHas(s, marker, IndexOf(s, marker), 3); }
  }

  lemma UnclassifiedSide(k: string)
    requires Unclassified(k)
    ensures SummarySide(k) == None
  {
    TidyCanonical(k);
    assert Underscored(k)[|k| - 1] != 'y';
  }

  lemma UnclassifiedMarkers(k: string)
    requires NoDoubleM(k) && NoDoubleM(Underscored(k))
    ensures IndexOf(k, DOTTED_FIELDS) == -1 && IndexOf(Underscored(k), CANONICAL_FIELDS) == -1
  {
    NotMarked(k, DOTTED_FIELDS);
    NotMarked(Underscored(k), CANONICAL_FIELDS);
  }

  lemma UnclassifiedField(k: string)
    requires Unclassified(k)
    ensures SummaryField(k) == None
  {
    TidyCanonical(k);
    TidyTrimmed(k);
    UnclassifiedMarkers(k);
    NoFieldMarkers(k, Underscored(k));
  }

  lemma UnclassifiedPlain(k: string)
    requires Unclassified(k)
    ensures PlainRuleFor(k) == Pass
  {
    TidyCanonical(k);
    TidyTrimmed(k);
    NotRawPrefix(Underscored(k));
    NotRawName(Underscored(k));
    NotPrefix("metadata.", k, 0);
    NotPrefix("metadata_", Underscored(k), 0);
  }

  lemma UnclassifiedPasses(k: string)
    requires Unclassified(k)
    ensures RuleFor(k) == Plain(Pass)
  {
    UnclassifiedSide(k);
    UnclassifiedField(k);
    UnclassifiedPlain(k);
  }

  // One lemma for each key: its characters are checked one by one.

  lemma GenaiProvider(k: string) requires k == "genai.provider" ensures Unclassified(k) {}
  lemma GenaiModel(k: string) requires k == "genai.model" ensures Unclassified(k) {}
  lemma GenaiRetryAttempt(k: string) requires k == "genai.retry.attempt" ensures Unclassified(k) {}
  lemma GenaiLatencyFirstTokenMs(k: string) requires k == "genai.latency.first_token_ms" ensures Unclassified(k) {}
  lemma GenaiLatencyTotalMs(k: string) requires k == "genai.latency.total_ms" ensures Unclassified(k) {}
  lemma GenaiUsageInputTokens(k: string) requires k == "genai.usage.input_tokens" ensures Unclassified(k) {}
  lemma GenaiUsageOutputTokens(k: string) requires k == "genai.usage.output_tokens" ensures Unclassified(k) {}
  lemma GenaiUsageTotalTokens(k: string) requires k == "genai.usage.total_tokens" ensures Unclassified(k) {}
  lemma GenaiUsageReasoningTokens(k: string) requires k == "genai.usage.reasoning_tokens" ensures Unclassified(k) {}
  lemma GenaiUsageCachedInputTokens(k: string)
    requires k == "genai.usage.cached_input_tokens" ensures Unclassified(k) {}
  lemma ToolName(k: string) requires k == "tool.name" ensures Unclassified(k) {}
  lemma ToolCallId(k: string) requires k == "tool.call_id" ensures Unclassified(k) {}
  lemma ToolKind(k: string) requires k == "tool.kind" ensures Unclassified(k) {}
  lemma ToolStatus(k: string) requires k == "tool.status" ensures Unclassified(k) {}
  lemma ToolLatencyMs(k: string) requires k == "tool.latency.ms" ensures Unclassified(k) {}
  lemma StreamChunkIndex(k: string) requires k == "stream.chunk.index" ensures Unclassified(k) {}
  lemma RetryAttempt(k: string) requires k == "retry.attempt" ensures Unclassified(k) {}
  lemma RetryReason(k: string) requires k == "retry.reason" ensures Unclassified(k) {}
  lemma CompactionReason(k: string) requires k == "compaction.reason" ensures Unclassified(k) {}
  lemma InterruptReason(k: string) requires k == "interrupt.reason" ensures Unclassified(k) {}
  lemma ResumeReason(k: string) requires k == "resume.reason" ensures Unclassified(k) {}
  lemma CancellationReason(k: string) requires k == "cancellation.reason" ensures Unclassified(k) {}

  // ----- Validity.

  predicate Agree(a: Attributes, b: Attributes, k: string) {
    (k in a <==> k in b) && (k in a ==> a[k] == b[k])
  }

  /** Two maps agree on every key that validation looks at. */
  predicate AgreeOnSchema(a: Attributes, b: Attributes) {
    && AgreeOnEvents(a, b) && AgreeOnTools(a, b)
    && Agree(a, b, "genai.provider") && Agree(a, b, "genai.model")
    && forall i :: 0 <= i < |GENAI_INTS| ==> Agree(a, b, GENAI_INTS[i])
  }

  predicate AgreeOnTools(a: Attributes, b: Attributes) {
    && Agree(a, b, "tool.name") && Agree(a, b, "tool.call_id") && Agree(a, b, "tool.kind")
    && Agree(a, b, "tool.status") && Agree(a, b, "tool.latency.ms")
  }

  predicate AgreeOnEvents(a: Attributes, b: Attributes) {
    && Agree(a, b, "genai.latency.first_token_ms") && Agree(a, b, "stream.chunk.index")
    && Agree(a, b, "retry.attempt") && Agree(a, b, "retry.reason") && Agree(a, b, "compaction.reason")
    && Agree(a, b, "interrupt.reason") && Agree(a, b, "resume.reason") && Agree(a, b, "cancellation.reason")
  }

  lemma KeySurvives(rules: Rules, attrs: Attributes, opts: Options, k: string)
    requires rules(k) == Plain(Pass)
    ensures Agree(attrs, Redacted(rules, attrs, opts), k)
  {
  }

  lemma UnclassifiedSurvives(attrs: Attributes, opts: Options, k: string)
    requires Unclassified(k)
    ensures Agree(attrs, Redacted(RuleFor, attrs, opts), k)
  {
    UnclassifiedPasses(k);
    KeySurvives(RuleFor, attrs, opts, k);
  }

  lemma EventKeysSurvive(attrs: Attributes, opts: Options)
    ensures AgreeOnEvents(attrs, Redacted(RuleFor, attrs, opts))
  {
    GenaiLatencyFirstTokenMs("genai.latency.first_token_ms");
    UnclassifiedSurvives(attrs, opts, "genai.latency.first_token_ms");
    StreamChunkIndex("stream.chunk.index");
    UnclassifiedSurvives(attrs, opts, "stream.chunk.index");
    RetryAttempt("retry.attempt");
    UnclassifiedSurvives(attrs, opts, "retry.attempt");
    RetryReason("retry.reason");
    UnclassifiedSurvives(attrs, opts, "retry.reason");
    CompactionReason("compaction.reason");
    UnclassifiedSurvives(attrs, opts, "compaction.reason");
    InterruptReason("interrupt.reason");
    UnclassifiedSurvives(attrs, opts, "interrupt.reason");
    ResumeReason("resume.reason");
    UnclassifiedSurvives(attrs, opts, "resume.reason");
    CancellationReason("cancellation.reason");
    UnclassifiedSurvives(attrs, opts, "cancellation.reason");
  }

  lemma ToolKeysSurvive(attrs: Attributes, opts: Options)
    ensures AgreeOnTools(attrs, Redacted(RuleFor, attrs, opts))
  {
    ToolName("tool.name");
    UnclassifiedSurvives(attrs, opts, "tool.name");
    ToolCallId("tool.call_id");
    UnclassifiedSurvives(attrs, opts, "tool.call_id");
    ToolKind("tool.kind");
    UnclassifiedSurvives(attrs, opts, "tool.kind");
    ToolStatus("tool.status");
    UnclassifiedSurvives(attrs, opts, "tool.status");
    ToolLatencyMs("tool.latency.ms");
    UnclassifiedSurvives(attrs, opts, "tool.latency.ms");
  }

  lemma GenaiIntUnclassified(i: nat)
    requires i < |GENAI_INTS|
    ensures Unclassified(GENAI_INTS[i])
  {
    var k := GENAI_INTS[i];
    match i
    case 0 => GenaiUsageInputTokens(k);
    case 1 => GenaiUsageOutputTokens(k);
    case 2 => GenaiUsageTotalTokens(k);
    case 3 => GenaiUsageReasoningTokens(k);
    case 4 => GenaiUsageCachedInputTokens(k);
    case 5 => GenaiLatencyFirstTokenMs(k);
    case 6 => GenaiLatencyTotalMs(k);
    case _ => GenaiRetryAttempt(k);
  }

  /** The pipeline's redaction leaves every attribute of the schema as it is. */
  lemma SchemaKeysSurvive(attrs: Attributes, opts: Options)
    ensures AgreeOnSchema(attrs, Redacted(RuleFor, attrs, opts))
  {
    EventKeysSurvive(attrs, opts);
    ToolKeysSurvive(attrs, opts);
    GenaiProvider("genai.provider");
    UnclassifiedSurvives(attrs, opts, "genai.provider");
    GenaiModel("genai.model");
    UnclassifiedSurvives(attrs, opts, "genai.model");
    forall i | 0 <= i < |GENAI_INTS| ensures Agree(attrs, Redacted(RuleFor, attrs, opts), GENAI_INTS[i]) {
      GenaiIntUnclassified(i);
      UnclassifiedSurvives(attrs, opts, GENAI_INTS[i]);
    }
  }

  lemma AttributesStaySupported(rules: Rules, attrs: Attributes, opts: Options)
    requires ValidAttributes(attrs)
    ensures ValidAttributes(Redacted(rules, attrs, opts))
  {
    var out := Redacted(rules, attrs, opts);
    forall k | k in out ensures Supported(out[k]) { FateKeepsType(rules(k), k, attrs[k], opts); }
  }

  /** Redaction changes nothing of an error but its message. */
  lemma ErrorStaysValid(e: Option<ErrorInfo>)
    ensures ErrorOf(e).Some? == e.Some?
    ensures e.Some? ==> ErrorOf(e).value == e.value.(message := ErrorOf(e).value.message)
  {
  }

  /** What an event needs depends on its name, its schema attributes and its having records. */
  lemma EventRequiredAgrees(e: Event, attrs: Attributes, records: seq<Record>)
    requires EventRequired(e) && AgreeOnEvents(e.attributes, attrs) && AgreeOnTools(e.attributes, attrs)
    ensures EventRequired(e.(attributes := attrs, redaction := e.redaction + records))
  {
  }

  lemma ToolEventAgrees(e: Event, out: Event)
    requires ValidToolEvent(e) && AgreeOnTools(e.attributes, out.attributes) && out.name == e.name
    requires out.error == ErrorOf(e.error)
    ensures ValidToolEvent(out)
  {
    ErrorStaysValid(e.error);
  }

  lemma EventStaysValid(e: Event, out: Event, rules: Rules, opts: Options)
    requires ValidEvent(e) && out == RedactedEvent(rules, e, opts)
    requires AgreeOnSchema(e.attributes, out.attributes)
    ensures ValidEvent(out)
  {
    AttributesStaySupported(rules, e.attributes, opts);
    var records := Records(rules, e.attributes, opts) + ErrorNotes(e.error);
    assert out.redaction == e.redaction + records;
    EventRequiredAgrees(e, out.attributes, records);
    assert EventRequired(out);
    ToolEventAgrees(e, out);
    ErrorStaysValid(e.error);
  }

  lemma SpanRequiredAgrees(s: Span, out: Span)
    requires SpanRequired(s) && AgreeOnSchema(s.attributes, out.attributes)
    requires out.kind == s.kind && out.end == s.end
    ensures SpanRequired(out)
  {
  }

  lemma ToolSpanAgrees(s: Span, out: Span)
    requires ValidToolSpan(s) && AgreeOnTools(s.attributes, out.attributes)
    requires out.kind == s.kind && out.end == s.end && out.error == ErrorOf(s.error)
    ensures ValidToolSpan(out)
  {
    ErrorStaysValid(s.error);
  }

  lemma SpanStaysValid(s: Span, out: Span, rules: Rules, opts: Options)
    requires ValidSpan(s) && out == RedactedSpan(rules, s, opts)
    requires AgreeOnSchema(s.attributes, out.attributes)
    requires forall i :: 0 <= i < |out.events| ==> ValidEvent(out.events[i])
    ensures ValidSpan(out)
  {
    AttributesStaySupported(rules, s.attributes, opts);
    SpanRequiredAgrees(s, out);
    ToolSpanAgrees(s, out);
    ErrorStaysValid(s.error);
  }

  /** Every span that validation accepts is still accepted after redaction, with any options,
      and so is each of its events. */
  lemma RedactionPreservesSchema(s: Span, opts: Options)
    requires ValidSpan(s)
    ensures ValidSpan(RedactedSpan(RuleFor, s, opts))
  {
    var out := RedactedSpan(RuleFor, s, opts);
    forall i | 0 <= i < |out.events| ensures ValidEvent(out.events[i]) {
      SchemaKeysSurvive(s.events[i].attributes, opts);
      EventStaysValid(s.events[i], out.events[i], RuleFor, opts);
    }
    SchemaKeysSurvive(s.attributes, opts);
    SpanStaysValid(s, out, RuleFor, opts);
  }
}

/** What validation rejects: from a valid span or event, exactly which changes of one part
    leave it valid. */
module SchemaLaws {
  import opened Model

  // ----- The conditions, part by part.

  /** An error that says what failed and how, and is not both canceled and retryable. */
  predicate Complete(e: ErrorInfo) {
    && e.operation != "" && e.classification != "" && e.retryable.Some?
    && (e.canceled.Some? && e.canceled.value ==> !e.retryable.value)
  }

  /** The flags of a cancellation. */
  predicate FlagsCanceled(e: ErrorInfo) {
    e.canceled.Some? && e.canceled.value && e.retryable.Some? && !e.retryable.value
  }

  predicate IsText(attrs: Attributes, key: string) { key in attrs && attrs[key].Str? }

  predicate IsNumber(attrs: Attributes, key: string) { key in attrs && (attrs[key].Int? || attrs[key].Int64?) }

  predicate NumberOrMissing(attrs: Attributes, key: string) { key in attrs ==> IsNumber(attrs, key) }

  predicate IsWord(attrs: Attributes, key: string, word: string) {
    key in attrs && attrs[key].Str? && attrs[key].text == word
  }

  predicate GenaiReady(a: Attributes) {
    && IsText(a, "genai.provider") && IsText(a, "genai.model")
    && NumberOrMissing(a, "genai.usage.input_tokens") && NumberOrMissing(a, "genai.usage.output_tokens")
    && NumberOrMissing(a, "genai.usage.total_tokens") && NumberOrMissing(a, "genai.usage.reasoning_tokens")
    && NumberOrMissing(a, "genai.usage.cached_input_tokens")
    && NumberOrMissing(a, "genai.latency.first_token_ms") && NumberOrMissing(a, "genai.latency.total_ms")
    && NumberOrMissing(a, "genai.retry.attempt")
  }

  predicate ToolError(e: Option<ErrorInfo>) { e.Some? && e.value.operation == "tool_call" && Complete(e.value) }

  /** How a tool call may have ended. */
  predicate ToolEnded(a: Attributes, key: string, e: Option<ErrorInfo>) {
    || IsWord(a, key, "") || IsWord(a, key, "succeeded")
    || (IsWord(a, key, "failed") && ToolError(e))
    || (IsWord(a, key, "canceled") && ToolError(e) && FlagsCanceled(e.value))
  }

  predicate ToolReady(a: Attributes, ended: bool, e: Option<ErrorInfo>) {
    && IsText(a, "tool.name") && IsText(a, "tool.call_id") && IsText(a, "tool.kind") && IsText(a, "tool.status")
    && (ended ==> IsNumber(a, "tool.latency.ms") && ToolEnded(a, "tool.status", e))
    && (!ended ==> IsWord(a, "tool.status", "started") || IsWord(a, "tool.status", ""))
  }

  /** What the kind of a span asks of its other parts. */
  predicate KindReady(kind: string, a: Attributes, ended: bool, e: Option<ErrorInfo>) {
    || kind == "session" || kind == "run" || kind == "export_flush" || kind == "export_shutdown"
    || ((kind == "model_call" || kind == "stream") && GenaiReady(a))
    || (kind == "tool_call" && ToolReady(a, ended, e))
  }

  /** What the status of a span asks of its error. */
  predicate StatusFits(status: string, e: Option<ErrorInfo>) {
    || status == "ok"
    || (status == "error" && e.Some?)
    || (status == "canceled" && e.Some? && FlagsCanceled(e.value))
  }

  // ----- The two readings of the parts agree.

  lemma GenaiAgrees(a: Attributes)
    ensures ValidGenaiAttributes(a) <==> GenaiReady(a)
  {
    if GenaiReady(a) {
      forall i | 0 <= i < |GENAI_INTS| ensures IntIfPresent(a, GENAI_INTS[i]) { GenaiKey(i); }
    }
    if ValidGenaiAttributes(a) {
      assert IntIfPresent(a, GENAI_INTS[0]) && IntIfPresent(a, GENAI_INTS[1]) && IntIfPresent(a, GENAI_INTS[2]);
      assert IntIfPresent(a, GENAI_INTS[3]) && IntIfPresent(a, GENAI_INTS[4]) && IntIfPresent(a, GENAI_INTS[5]);
      assert IntIfPresent(a, GENAI_INTS[6]) && IntIfPresent(a, GENAI_INTS[7]);
    }
  }

  lemma GenaiKey(i: nat)
    requires i < |GENAI_INTS|
    ensures GENAI_INTS[i] in {
      "genai.usage.input_tokens", "genai.usage.output_tokens", "genai.usage.total_tokens",
      "genai.usage.reasoning_tokens", "genai.usage.cached_input_tokens", "genai.latency.first_token_ms",
      "genai.latency.total_ms", "genai.retry.attempt"}
  {
  }

  lemma EndedAgrees(a: Attributes, key: string, e: Option<ErrorInfo>)
    requires IsText(a, key)
    ensures Text(a, key) == "" || ValidTerminalTool(Text(a, key), e) <==> ToolEnded(a, key, e)
  {
  }

  lemma KindAgrees(s: Span)
    ensures (s.kind in SPAN_KINDS && SpanRequired(s) && ValidToolSpan(s))
       <==> KindReady(s.kind, s.attributes, !s.end.IsZero(), s.error)
  {
    GenaiAgrees(s.attributes);
    if s.kind == "tool_call" && IsText(s.attributes, "tool.status") {
      EndedAgrees(s.attributes, "tool.status", s.error);
    }
  }

  // ----- Spans.

  /** The identity of a valid span may become any with both identifiers. */
  lemma SpanIdentity(s: Span, identity: Identity)
    requires ValidSpan(s)
    ensures ValidSpan(s.(identity := identity)) <==> identity.id != "" && identity.trace != ""
  {
  }

  /** Any name but the empty one. */
  lemma SpanName(s: Span, name: string)
    requires ValidSpan(s)
    ensures ValidSpan(s.(name := name)) <==> name != ""
  {
  }

  /** One of the seven kinds, whose attributes are there. */
  lemma SpanKind(s: Span, kind: string)
    requires ValidSpan(s)
    ensures ValidSpan(s.(kind := kind)) <==> KindReady(kind, s.attributes, s.end.at != 0, s.error)
  {
    KindAgrees(s.(kind := kind));
  }

  /** One of the three statuses, with the error it asks for. */
  lemma SpanStatus(s: Span, status: string)
    requires ValidSpan(s)
    ensures ValidSpan(s.(status := status)) <==> StatusFits(status, s.error)
  {
  }

  /** A start in UTC that is not after the end. */
  lemma SpanStart(s: Span, start: Time)
    requires ValidSpan(s)
    ensures ValidSpan(s.(start := start)) <==> start.at != 0 && start.utc && (s.end.at != 0 ==> start.at <= s.end.at)
  {
  }

  /** No end, or one in UTC that is not before the start; a tool call's end must fit its status. */
  lemma SpanEnd(s: Span, end: Time)
    requires ValidSpan(s)
    ensures ValidSpan(s.(end := end)) <==>
              && (end.at != 0 ==> end.utc && s.start.at <= end.at)
              && (s.kind == "tool_call" ==> ToolReady(s.attributes, end.at != 0, s.error))
  {
    KindAgrees(s);
    KindAgrees(s.(end := end));
  }

  /** An error that is complete, fits the status, and fits how a tool call ended. */
  lemma SpanError(s: Span, e: Option<ErrorInfo>)
    requires ValidSpan(s)
    ensures ValidSpan(s.(error := e)) <==>
              && StatusFits(s.status, e) && (e.Some? ==> Complete(e.value))
              && (s.kind == "tool_call" ==> ToolReady(s.attributes, s.end.at != 0, e))
  {
    KindAgrees(s);
    KindAgrees(s.(error := e));
  }

  /** Attributes that hold supported values only, with those the kind asks for. */
  lemma SpanAttributes(s: Span, attrs: Attributes)
    requires ValidSpan(s)
    ensures ValidSpan(s.(attributes := attrs)) <==>
              && (forall k :: k in attrs ==>
                    attrs[k].Str? || attrs[k].Bool? || attrs[k].Int? || attrs[k].Int64? || attrs[k].Float?)
              && KindReady(s.kind, attrs, s.end.at != 0, s.error)
  {
    KindAgrees(s.(attributes := attrs));
  }

  /** Any redaction records, and any events that are valid themselves. */
  lemma SpanEvents(s: Span, events: seq<Event>, redaction: seq<Record>)
    requires ValidSpan(s)
    ensures ValidSpan(s.(redaction := redaction))
    ensures ValidSpan(s.(events := events)) <==> forall i :: 0 <= i < |events| ==> ValidEvent(events[i])
  {
  }

  // ----- Events.

  /** What the name of an event asks of its attributes and its redaction records. */
  predicate EventReady(name: string, a: Attributes, redaction: seq<Record>) {
    && (name == "stream.chunk" ==> IsNumber(a, "stream.chunk.index"))
    && (name == "stream.first_token" ==> IsNumber(a, "genai.latency.first_token_ms"))
    && (name == "tool.registered" || name == "tool.materialized" || name == "tool.settled" ==>
          IsText(a, "tool.name") && IsText(a, "tool.kind") && IsText(a, "tool.status"))
    && (name == "tool.materialized" || name == "tool.settled" ==> IsText(a, "tool.call_id"))
    && (name == "retry" ==> IsNumber(a, "retry.attempt") && IsText(a, "retry.reason"))
    && (name == "compaction" ==> IsText(a, "compaction.reason"))
    && (name == "interrupt" ==> IsText(a, "interrupt.reason"))
    && (name == "resume" ==> IsText(a, "resume.reason"))
    && (name == "cancellation" ==> IsText(a, "cancellation.reason"))
    && (name == "redaction.applied" ==> redaction != [])
  }

  /** What it asks of its error, and of a tool's status. */
  predicate EventFits(name: string, a: Attributes, e: Option<ErrorInfo>) {
    && (name == "tool.registered" ==> IsWord(a, "tool.status", "") || IsWord(a, "tool.status", "registered"))
    && (name == "tool.materialized" ==> IsWord(a, "tool.status", "") || IsWord(a, "tool.status", "materialized"))
    && (name == "tool.settled" ==> ToolEnded(a, "tool.status", e))
    && (name == "error" || name == "observation.error" || name == "cancellation" ==> e.Some?)
    && (name == "observation.error" ==> e.Some? && e.value.dropped.Some?)
    && (name == "cancellation" ==> e.Some? && FlagsCanceled(e.value))
  }

  /** The category of each event name. */
  predicate CategoryIs(name: string, category: string) {
    || (category == "stream" && (name == "stream.chunk" || name == "stream.first_token"))
    || (category == "tool" && (name == "tool.registered" || name == "tool.materialized" || name == "tool.settled"))
    || (category == "error" && (name == "error" || name == "observation.error"))
    || (category == "redaction" && name == "redaction.applied")
    || (category == "lifecycle"
        && (name == "retry" || name == "compaction" || name == "interrupt" || name == "resume"
            || name == "cancellation"))
  }

  lemma NameAgrees(e: Event)
    ensures (ValidEventName(e.name) && e.category == EventCategory(e.name)) <==> CategoryIs(e.name, e.category)
  {
  }

  lemma EventAgrees(e: Event)
    ensures (EventRequired(e) && ValidToolEvent(e) && ValidEventError(e))
       <==> EventReady(e.name, e.attributes, e.redaction) && EventFits(e.name, e.attributes, e.error)
  {
    RequiredAgrees(e);
    if EventRequired(e) { FitsAgrees(e); }
  }

  lemma RequiredAgrees(e: Event)
    ensures EventRequired(e) <==> EventReady(e.name, e.attributes, e.redaction)
  {
  }

  lemma FitsAgrees(e: Event)
    requires EventRequired(e)
    ensures ValidToolEvent(e) && ValidEventError(e) <==> EventFits(e.name, e.attributes, e.error)
  {
    if IsText(e.attributes, "tool.status") { EndedAgrees(e.attributes, "tool.status", e.error); }
  }

  lemma EventIdentity(e: Event, identity: Identity)
    requires ValidEvent(e)
    ensures ValidEvent(e.(identity := identity)) <==> identity.id != "" && identity.trace != ""
  {
  }

  /** A name and a category that belong together, with what the name asks for. */
  lemma EventName(e: Event, name: string, category: string)
    requires ValidEvent(e)
    ensures ValidEvent(e.(name := name, category := category)) <==>
              CategoryIs(name, category) && EventReady(name, e.attributes, e.redaction)
              && EventFits(name, e.attributes, e.error)
  {
    NameAgrees(e.(name := name, category := category));
    EventAgrees(e.(name := name, category := category));
  }

  lemma EventTime(e: Event, timestamp: Time)
    requires ValidEvent(e)
    ensures ValidEvent(e.(timestamp := timestamp)) <==> timestamp.at != 0 && timestamp.utc
  {
  }

  lemma EventStatus(e: Event, status: string)
    requires ValidEvent(e)
    ensures ValidEvent(e.(status := status)) <==>
              status == "" || status == "ok" || status == "error" || status == "canceled"
  {
  }

  lemma EventError(e: Event, error: Option<ErrorInfo>)
    requires ValidEvent(e)
    ensures ValidEvent(e.(error := error)) <==>
              (error.Some? ==> Complete(error.value)) && EventFits(e.name, e.attributes, error)
  {
    EventAgrees(e);
    EventAgrees(e.(error := error));
  }

  lemma EventAttributes(e: Event, attrs: Attributes, redaction: seq<Record>)
    requires ValidEvent(e)
    ensures ValidEvent(e.(attributes := attrs, redaction := redaction)) <==>
              && (forall k :: k in attrs ==>
                    attrs[k].Str? || attrs[k].Bool? || attrs[k].Int? || attrs[k].Int64? || attrs[k].Float?)
              && EventReady(e.name, attrs, redaction) && EventFits(e.name, attrs, e.error)
  {
    EventAgrees(e.(attributes := attrs, redaction := redaction));
  }
}

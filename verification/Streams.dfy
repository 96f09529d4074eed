/** The handle of a model stream: what its calls collect, and the observation it exports. */
module Streams {
  import opened Model

  const NANOS_PER_MS := 1000000

  datatype Service = Service(name: string, env: string, version: string)

  /** The parts of a correlation that reach an observation. */
  datatype Correlation = Correlation(
    observation: string, parent: string, trace: string, session: string, run: string, agent: string,
    message: string, thread: string, aguiRun: string, toolCall: string)

  type Metadata = map<string, string>

  /** What the redaction made of a summary. */
  datatype Captured = Captured(attributes: Attributes, records: seq<Record>)

  datatype Count = Count(tokens: int, known: bool)

  datatype Usage = Usage(input: Count, output: Count, total: Count, reasoning: Count, cachedInput: Count)

  /** The public error: `message` is that of the wrapped error. */
  datatype Failure = Failure(operation: string, classification: string, message: string, retryable: bool, dropped: bool)

  datatype Observation = Observation(
    id: string, parent: string, trace: string, kind: string, name: string, status: string, timestamp: Time,
    duration: Option<int>, attributes: Attributes, events: seq<Observation>, redaction: seq<Record>,
    error: Option<Failure>)

  // ----- From public observations to spans.

  function CanceledFlag(attrs: Attributes): Option<bool> {
    if "error.canceled" in attrs && attrs["error.canceled"].Bool? then Some(attrs["error.canceled"].flag) else None
  }

  function ToErrorInfo(o: Observation): Option<ErrorInfo> {
    if o.error.None? then None
    else
      var e := o.error.value;
      Some(ErrorInfo(e.operation, "", "", e.message, e.classification, Some(e.retryable),
                     CanceledFlag(o.attributes), Some(e.dropped)))
  }

  function ToEvent(o: Observation): Event {
    Event(Identity(o.id, o.parent, o.trace), o.kind, EventCategory(o.kind), o.status, o.timestamp.UTC(),
          o.attributes, o.redaction, ToErrorInfo(o))
  }

  function ToEvents(os: seq<Observation>): (es: seq<Event>)
    ensures |es| == |os|
  {
    seq(|os|, i requires 0 <= i < |os| => ToEvent(os[i]))
  }

  function ToSpan(o: Observation): Span {
    var end := if o.duration.Some? then o.timestamp.Add(o.duration.value).UTC() else Time(0, true);
    Span(Identity(o.id, o.parent, o.trace), o.kind, o.name, o.status, o.timestamp.UTC(), end,
         o.attributes, ToEvents(o.events), o.redaction, ToErrorInfo(o))
  }

  // ----- Attributes.

  function WithText(attrs: Attributes, key: string, value: string): Attributes {
    if value == "" then attrs else attrs[key := Str(value)]
  }

  /** Keys with their texts. */
  type Labels = seq<(string, string)>

  function WithTexts(attrs: Attributes, labels: Labels): Attributes
    decreases |labels|
  {
    if labels == [] then attrs
    else
      var n := |labels| - 1;
      WithText(WithTexts(attrs, labels[..n]), labels[n].0, labels[n].1)
  }

  function ServiceLabels(s: Service): Labels {
    [("service.name", s.name), ("service.env", s.env), ("service.version", s.version)]
  }

  function CorrelationLabels(c: Correlation): Labels {
    [("correlation.session_id", c.session), ("correlation.run_id", c.run), ("correlation.agent_id", c.agent),
     ("correlation.assistant_message_id", c.message), ("correlation.thread_id", c.thread),
     ("correlation.agui_run_id", c.aguiRun), ("correlation.tool_call_id", c.toolCall)]
  }

  function MetadataKey(name: string): string { "metadata." + name }

  lemma MetadataKeysDiffer()
    ensures forall a, b :: MetadataKey(a) == MetadataKey(b) ==> a == b
  {
    forall a, b | MetadataKey(a) == MetadataKey(b) ensures a == b {
      assert MetadataKey(a)[|"metadata."|..] == a && MetadataKey(b)[|"metadata."|..] == b;
    }
  }

  function MetadataAttributes(metadata: Metadata): Attributes {
    MetadataKeysDiffer();
    map name | name in metadata && metadata[name] != "" :: MetadataKey(name) := Str(metadata[name])
  }

  function BaseAttributes(s: Service, c: Correlation, metadata: Metadata): Attributes {
    WithTexts(WithTexts(map[], ServiceLabels(s)), CorrelationLabels(c)) + MetadataAttributes(metadata)
  }

  function WithCount(attrs: Attributes, key: string, count: Count): Attributes {
    if count.tokens != 0 || count.known then attrs[key := Int64(count.tokens)] else attrs
  }

  type Counts = seq<(string, Count)>

  function WithCounts(attrs: Attributes, counts: Counts): Attributes
    decreases |counts|
  {
    if counts == [] then attrs
    else
      var n := |counts| - 1;
      WithCount(WithCounts(attrs, counts[..n]), counts[n].0, counts[n].1)
  }

  function UsageCounts(u: Usage): Counts {
    [("genai.usage.input_tokens", u.input), ("genai.usage.output_tokens", u.output),
     ("genai.usage.total_tokens", u.total), ("genai.usage.reasoning_tokens", u.reasoning),
     ("genai.usage.cached_input_tokens", u.cachedInput)]
  }

  function WithFailure(attrs: Attributes, e: Failure, canceled: bool): Attributes {
    var a := WithText(WithText(attrs, "error.operation", e.operation), "error.classification", e.classification);
    var b := a["error.retryable" := Bool(e.retryable)];
    var c := if canceled then b["error.canceled" := Bool(true)] else b;
    if e.dropped then c["error.dropped" := Bool(true)] else c
  }

  // ----- The handle.

  /** What a handle keeps unchanged. */
  datatype Handle = Handle(
    service: Service, corr: Correlation, name: string, start: Time, attributes: Attributes, redaction: seq<Record>)

  /** What its calls change. */
  datatype Progress = Progress(ended: bool, firstTokenEmitted: bool, firstTokenMs: int, events: seq<Observation>)

  /** A zero time stands for now. */
  function ObservationTime(at: Time, now: Time): Time { if at.IsZero() then now.UTC() else at.UTC() }

  const FRESH := Progress(false, false, 0, [])

  const DEAD := Progress(true, false, 0, [])

  datatype Opening = Opening(
    service: Service, corr: Correlation, provider: string, model: string, name: string, at: Time, now: Time,
    retryAttempt: int, captured: Captured, metadata: Metadata)

  function WithNames(attrs: Attributes, provider: string, model: string): Attributes {
    WithText(WithText(attrs, "genai.provider", provider), "genai.model", model)
  }

  function WithRetry(attrs: Attributes, n: int): Attributes {
    if n > 0 then attrs["genai.retry.attempt" := Int64(n)] else attrs
  }

  function StartAttributes(o: Opening): Attributes {
    var base := BaseAttributes(o.service, o.corr, o.metadata);
    WithRetry(WithNames(base, o.provider, o.model), o.retryAttempt) + o.captured.attributes
  }

  /** Without a provider or a model the handle begins ended. */
  function StartStream(o: Opening): (Handle, Progress) {
    (Handle(o.service, o.corr, if o.name == "" then "stream" else o.name, ObservationTime(o.at, o.now),
            StartAttributes(o), o.captured.records),
     if o.provider == "" || o.model == "" then DEAD else FRESH)
  }

  // ----- Calls.

  datatype Call =
    | Chunk(index: int, at: Time, captured: Captured, metadata: Metadata, now: Time)
    | FirstToken(at: Time, latency: int, metadata: Metadata, now: Time)
    | End(at: Time, usage: Usage, captured: Captured, metadata: Metadata, now: Time)
    | Error(classification: string, message: Option<string>, canceled: bool, retryable: bool, at: Time, usage: Usage,
            captured: Captured, metadata: Metadata, now: Time)

  predicate Terminal(call: Call) { call.End? || call.Error? }

  function Digits(n: nat): string { (if n < 10 then "" else Digits(n / 10)) + ["0123456789"[n % 10]] }

  function Decimal(n: int): string { if n < 0 then "-" + Digits(-n) else Digits(n) }

  /** The correlation of an event of the stream. */
  function EventCorrelation(c: Correlation, suffix: string): Correlation {
    c.(parent := c.observation, observation := if c.observation == "" then "" else c.observation + "." + suffix)
  }

  function EventObservation(c: Correlation, name: string, at: Time, status: string, attrs: Attributes,
                            records: seq<Record>, e: Option<Failure>): Observation {
    Observation(c.observation, c.parent, c.trace, name, name, status, at, None, attrs, [], records, e)
  }

  function ChunkEvent(h: Handle, call: Call): Observation
    requires call.Chunk?
  {
    var corr := EventCorrelation(h.corr, "chunk." + Decimal(call.index));
    var attrs := BaseAttributes(h.service, corr, call.metadata)["stream.chunk.index" := Int64(call.index)];
    EventObservation(corr, "stream.chunk", ObservationTime(call.at, call.now), "ok", attrs + call.captured.attributes,
                     call.captured.records, None)
  }

  /** Latencies are truncated to milliseconds and never negative. */
  function FirstTokenMs(h: Handle, call: Call): int {
    var latency :=
      if !call.FirstToken? || call.latency == 0 then ObservationTime(call.at, call.now).Sub(h.start) else call.latency;
    if latency < 0 then 0 else latency / NANOS_PER_MS
  }

  function FirstTokenEvent(h: Handle, call: Call): Observation
    requires call.FirstToken?
  {
    var corr := EventCorrelation(h.corr, "first_token");
    var base := BaseAttributes(h.service, corr, call.metadata);
    var attrs := base["genai.latency.first_token_ms" := Int64(FirstTokenMs(h, call))];
    EventObservation(corr, "stream.first_token", ObservationTime(call.at, call.now), "ok", attrs, [], None)
  }

  predicate Canceled(call: Call) { call.Error? && call.canceled }

  function StatusOf(call: Call): string {
    if Canceled(call) then "canceled" else if call.Error? then "error" else "ok"
  }

  function FailureOf(call: Call): Option<Failure> {
    if !call.Error? then None
    else
      var classification := if call.classification == "" then StatusOf(call) else call.classification;
      Some(Failure("stream", classification, if call.message.Some? then call.message.value else classification,
                   call.retryable && !call.canceled, false))
  }

  function EndTime(h: Handle, call: Call): Time {
    var at := ObservationTime(call.at, call.now);
    if at.Before(h.start) then h.start else at
  }

  function CancellationEvent(h: Handle, at: Time, e: Option<Failure>): Observation {
    var corr := EventCorrelation(h.corr, "cancellation");
    var reason := if e.None? || e.value.classification == "" then "canceled" else e.value.classification;
    var attrs := WithText(BaseAttributes(h.service, corr, map[]), "cancellation.reason", reason);
    EventObservation(corr, "cancellation", at, "canceled",
                     if e.Some? then WithFailure(attrs, e.value, true) else attrs, [], e)
  }

  /** The event a call adds, when it adds one. */
  function EventOf(h: Handle, call: Call): Observation {
    if call.Chunk? then ChunkEvent(h, call)
    else if call.FirstToken? then FirstTokenEvent(h, call)
    else CancellationEvent(h, EndTime(h, call), FailureOf(call))
  }

  /** The attributes at the end, but for those of an error. */
  function EndAttributes(h: Handle, p: Progress, call: Call): Attributes
    requires Terminal(call)
  {
    var a := h.attributes + MetadataAttributes(call.metadata);
    var b := a["genai.latency.total_ms" := Int64(EndTime(h, call).Sub(h.start) / NANOS_PER_MS)];
    var c := if p.firstTokenEmitted then b["genai.latency.first_token_ms" := Int64(p.firstTokenMs)] else b;
    WithCounts(c, UsageCounts(call.usage)) + call.captured.attributes
  }

  function FinalAttributes(h: Handle, p: Progress, call: Call): Attributes
    requires Terminal(call)
  {
    if call.End? then EndAttributes(h, p, call)
    else WithFailure(EndAttributes(h, p, call), FailureOf(call).value, call.canceled)
  }

  function FinalObservation(h: Handle, p: Progress, call: Call): Observation
    requires Terminal(call)
  {
    Observation(h.corr.observation, h.corr.parent, h.corr.trace, "stream", h.name, StatusOf(call), h.start,
                Some(EndTime(h, call).Sub(h.start)), FinalAttributes(h, p, call), p.events,
                h.redaction + call.captured.records, FailureOf(call))
  }

  /** The critical section of a call, for any way to make events, and whether the call goes on
      to export. */
  function Advance(event: Call -> Observation, ms: Call -> int, p: Progress, call: Call): (r: (Progress, bool))
    ensures r.1 ==> Terminal(call)
  {
    if p.ended then (p, false)
    else
      match call
      case Chunk(_, _, _, _, _) => (p.(events := p.events + [event(call)]), false)
      case FirstToken(_, _, _, _) =>
        if p.firstTokenEmitted then (p, false)
        else (p.(firstTokenEmitted := true, firstTokenMs := ms(call), events := p.events + [event(call)]), false)
      case _ => (p.(ended := true, events := p.events + if Canceled(call) then [event(call)] else []), true)
  }

  function EventMaker(h: Handle): Call -> Observation { call => EventOf(h, call) }

  function Timer(h: Handle): Call -> int { call => FirstTokenMs(h, call) }

  /** The critical section of a call, and the observation it hands over to be exported. */
  function Step(h: Handle, p: Progress, call: Call): (Progress, Option<Observation>) {
    var (after, exports) := Advance(EventMaker(h), Timer(h), p, call);
    (after, if exports then Some(FinalObservation(h, after, call)) else None)
  }

  function Run(event: Call -> Observation, ms: Call -> int, p: Progress, calls: seq<Call>): Progress {
    if calls == [] then p else Advance(event, ms, Run(event, ms, p, calls[..|calls| - 1]), calls[|calls| - 1]).0
  }

  /** What the i-th call of a run exports. */
  function ExportAt(h: Handle, p: Progress, calls: seq<Call>, i: nat): Option<Observation>
    requires i < |calls|
  {
    Step(h, Run(EventMaker(h), Timer(h), p, calls[..i]), calls[i]).1
  }
}

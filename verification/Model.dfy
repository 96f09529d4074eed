/** Spans, events and the schema they are validated against. */
module Model {

  datatype Option<+T> = None | Some(value: T)

  /** What an attribute can hold. `Bytes` and `Other` stand for the Go values the schema does
      not support; `Nil` is a nil interface. */
  datatype Value =
    | Str(text: string) | Bool(flag: bool) | Int(i: int) | Int64(i: int) | Float(r: real)
    | Bytes(content: string) | Other(tag: nat) | Nil

  type Attributes = map<string, Value>

  const MAX_INT64 := 0x7fff_ffff_ffff_ffff

  /** An instant in nanoseconds since Go's zero time, and whether its location is UTC. A
      difference is an int64 and saturates. */
  datatype Time = Time(at: int, utc: bool) {
    predicate IsZero() { at == 0 }
    function UTC(): Time { Time(at, true) }
    predicate Before(other: Time) { at < other.at }
    function Add(duration: int): Time { Time(at + duration, utc) }
    function Sub(other: Time): int {
      var d := at - other.at;
      if d > MAX_INT64 then MAX_INT64 else if d < -MAX_INT64 - 1 then -MAX_INT64 - 1 else d
    }
  }

  datatype Identity = Identity(id: string, parent: string, trace: string)

  datatype Record = Record(path: string, reason: string, original: nat, retained: nat)

  datatype ErrorInfo = ErrorInfo(
    operation: string, kind: string, code: string, message: string, classification: string,
    retryable: Option<bool>, canceled: Option<bool>, dropped: Option<bool>)

  datatype Event = Event(
    identity: Identity, name: string, category: string, status: string, timestamp: Time,
    attributes: Attributes, redaction: seq<Record>, error: Option<ErrorInfo>)

  datatype Span = Span(
    identity: Identity, kind: string, name: string, status: string, start: Time, end: Time,
    attributes: Attributes, events: seq<Event>, redaction: seq<Record>, error: Option<ErrorInfo>)

  // ----- The schema.

  const SPAN_KINDS := {"session", "run", "model_call", "stream", "tool_call", "export_flush", "export_shutdown"}

  predicate ValidStatus(status: string) { status == "ok" || status == "error" || status == "canceled" }

  predicate ValidEventName(name: string) {
    || name == "stream.chunk" || name == "stream.first_token"
    || name == "tool.registered" || name == "tool.materialized" || name == "tool.settled"
    || name == "retry" || name == "compaction" || name == "interrupt" || name == "resume"
    || name == "cancellation" || name == "error" || name == "observation.error"
    || name == "redaction.applied"
  }

  function EventCategory(name: string): string {
    if name == "stream.chunk" || name == "stream.first_token" then "stream"
    else if name == "tool.registered" || name == "tool.materialized" || name == "tool.settled" then "tool"
    else if name == "error" || name == "observation.error" then "error"
    else if name == "redaction.applied" then "redaction"
    else "lifecycle"
  }

  predicate ValidIdentity(id: Identity) { id.id != "" && id.trace != "" }

  predicate Supported(v: Value) { v.Str? || v.Bool? || v.Int? || v.Int64? || v.Float? }

  ghost predicate ValidAttributes(attrs: Attributes) { forall k :: k in attrs ==> Supported(attrs[k]) }

  predicate HasString(attrs: Attributes, key: string) { key in attrs && attrs[key].Str? }

  predicate IsInt(v: Value) { v.Int? || v.Int64? }

  predicate HasInt(attrs: Attributes, key: string) { key in attrs && IsInt(attrs[key]) }

  predicate IntIfPresent(attrs: Attributes, key: string) { key in attrs ==> IsInt(attrs[key]) }

  /** The text of a string attribute, empty when it is missing or of another type. */
  function Text(attrs: Attributes, key: string): string {
    if HasString(attrs, key) then attrs[key].text else ""
  }

  predicate ValidError(e: ErrorInfo) {
    && e.operation != "" && e.classification != ""
    && e.retryable.Some?
    && !(e.canceled == Some(true) && e.retryable == Some(true))
  }

  /** What a canceled status demands of its error. */
  predicate CanceledFlags(e: ErrorInfo) { e.canceled == Some(true) && e.retryable == Some(false) }

  const GENAI_INTS := [
    "genai.usage.input_tokens", "genai.usage.output_tokens", "genai.usage.total_tokens",
    "genai.usage.reasoning_tokens", "genai.usage.cached_input_tokens",
    "genai.latency.first_token_ms", "genai.latency.total_ms", "genai.retry.attempt"]

  predicate ValidGenaiAttributes(attrs: Attributes) {
    && HasString(attrs, "genai.provider") && HasString(attrs, "genai.model")
    && forall i :: 0 <= i < |GENAI_INTS| ==> IntIfPresent(attrs, GENAI_INTS[i])
  }

  predicate SpanRequired(s: Span) {
    if s.kind == "model_call" || s.kind == "stream" then ValidGenaiAttributes(s.attributes)
    else if s.kind == "tool_call" then
      && HasString(s.attributes, "tool.name") && HasString(s.attributes, "tool.call_id")
      && HasString(s.attributes, "tool.kind") && HasString(s.attributes, "tool.status")
      && (!s.end.IsZero() ==> HasInt(s.attributes, "tool.latency.ms"))
    else true
  }

  predicate ValidToolError(e: Option<ErrorInfo>, canceled: bool) {
    && e.Some? && e.value.operation == "tool_call" && ValidError(e.value)
    && (canceled ==> CanceledFlags(e.value))
  }

  /** A terminal tool status is one of three, and two of them need an error. */
  predicate ValidTerminalTool(status: string, e: Option<ErrorInfo>) {
    || status == "succeeded"
    || (status == "failed" && ValidToolError(e, false))
    || (status == "canceled" && ValidToolError(e, true))
  }

  predicate ValidToolSpan(s: Span) {
    var status := Text(s.attributes, "tool.status");
    s.kind == "tool_call" && status != "" ==>
      if s.end.IsZero() then status == "started" else ValidTerminalTool(status, s.error)
  }

  predicate EventRequired(e: Event) {
    var a := e.attributes;
    match e.name
    case "stream.chunk" => HasInt(a, "stream.chunk.index")
    case "stream.first_token" => HasInt(a, "genai.latency.first_token_ms")
    case "tool.registered" => HasString(a, "tool.name") && HasString(a, "tool.kind") && HasString(a, "tool.status")
    case "tool.materialized" =>
      HasString(a, "tool.name") && HasString(a, "tool.call_id")
      && HasString(a, "tool.kind") && HasString(a, "tool.status")
    case "tool.settled" =>
      HasString(a, "tool.name") && HasString(a, "tool.call_id")
      && HasString(a, "tool.kind") && HasString(a, "tool.status")
    case "retry" => HasInt(a, "retry.attempt") && HasString(a, "retry.reason")
    case "compaction" => HasString(a, "compaction.reason")
    case "interrupt" => HasString(a, "interrupt.reason")
    case "resume" => HasString(a, "resume.reason")
    case "cancellation" => HasString(a, "cancellation.reason")
    case "redaction.applied" => e.redaction != []
    case _ => true
  }

  predicate ValidToolEvent(e: Event) {
    var status := Text(e.attributes, "tool.status");
    && (e.name == "tool.registered" && status != "" ==> status == "registered")
    && (e.name == "tool.materialized" && status != "" ==> status == "materialized")
    && (e.name == "tool.settled" && status != "" ==> ValidTerminalTool(status, e.error))
  }

  predicate ValidEventError(e: Event) {
    && (e.name == "error" || e.name == "observation.error" || e.name == "cancellation" ==> e.error.Some?)
    && (e.name == "observation.error" && e.error.Some? ==> e.error.value.dropped.Some?)
    && (e.name == "cancellation" && e.error.Some? ==> CanceledFlags(e.error.value))
  }

  ghost predicate ValidEvent(e: Event) {
    && ValidIdentity(e.identity) && ValidAttributes(e.attributes)
    && ValidEventName(e.name) && e.category == EventCategory(e.name)
    && !e.timestamp.IsZero() && e.timestamp.utc
    && (e.status == "" || ValidStatus(e.status))
    && (e.error.Some? ==> ValidError(e.error.value))
    && EventRequired(e) && ValidToolEvent(e) && ValidEventError(e)
  }

  ghost predicate ValidSpan(s: Span) {
    && ValidIdentity(s.identity) && ValidAttributes(s.attributes)
    && s.kind in SPAN_KINDS && s.name != "" && ValidStatus(s.status)
    && !s.start.IsZero() && s.start.utc
    && (!s.end.IsZero() ==> s.start.at <= s.end.at && s.end.utc)
    && (s.status != "ok" ==> s.error.Some?)
    && (s.error.Some? ==> ValidError(s.error.value))
    && (s.error.Some? && s.status == "canceled" ==> CanceledFlags(s.error.value))
    && SpanRequired(s) && ValidToolSpan(s)
    && forall i :: 0 <= i < |s.events| ==> ValidEvent(s.events[i])
  }

  // ----- The validating code: it counts the errors it would join.

  function One(failed: bool): nat { if failed then 1 else 0 }

  method CountBadAttributes(attrs: Attributes) returns (errs: nat)
    ensures errs == 0 <==> ValidAttributes(attrs)
  {
    errs := 0;
    var rest := attrs.Keys;
    while rest != {}
      invariant rest <= attrs.Keys
      invariant errs == 0 <==> forall k :: k in attrs && k !in rest ==> Supported(attrs[k])
      decreases rest
    {
      var key :| key in rest;
      errs := errs + One(!Supported(attrs[key]));
      rest := rest - {key};
    }
  }

  method CountMissing(attrs: Attributes, required: seq<string>, wantInt: bool) returns (errs: nat)
    ensures errs == 0 <==> forall i :: 0 <= i < |required| ==>
              if wantInt then HasInt(attrs, required[i]) else HasString(attrs, required[i])
  {
    errs := 0;
    for n := 0 to |required|
      invariant errs == 0 <==> forall i :: 0 <= i < n ==>
                  if wantInt then HasInt(attrs, required[i]) else HasString(attrs, required[i])
    {
      var key := required[n];
      if key !in attrs {
        errs := errs + 1;
      } else if !(if wantInt then IsInt(attrs[key]) else attrs[key].Str?) {
        errs := errs + 1;
      }
    }
  }

  method CountMistyped(attrs: Attributes, keys: seq<string>) returns (errs: nat)
    ensures errs == 0 <==> forall i :: 0 <= i < |keys| ==> IntIfPresent(attrs, keys[i])
  {
    errs := 0;
    for n := 0 to |keys|
      invariant errs == 0 <==> forall i :: 0 <= i < n ==> IntIfPresent(attrs, keys[i])
    {
      errs := errs + One(keys[n] in attrs && !IsInt(attrs[keys[n]]));
    }
  }

  method CountErrorFaults(e: ErrorInfo) returns (errs: nat)
    ensures errs == 0 <==> ValidError(e)
  {
    errs := One(e.operation == "") + One(e.classification == "") + One(e.retryable.None?);
    if e.canceled.Some? && e.retryable.Some? && e.canceled.value && e.retryable.value { errs := errs + 1; }
  }

  method CountTerminalFlags(status: string, e: ErrorInfo) returns (errs: nat)
    ensures errs == 0 <==> (status == "canceled" ==> CanceledFlags(e))
  {
    errs := 0;
    if status == "canceled" {
      errs := errs + One(e.canceled.None? || !e.canceled.value);
      errs := errs + One(e.retryable.None? || e.retryable.value);
    }
  }

  method CountToolError(e: Option<ErrorInfo>, canceled: bool) returns (errs: nat)
    ensures errs == 0 <==> ValidToolError(e, canceled)
  {
    if e.None? { return 1; }
    errs := One(e.value.operation != "tool_call");
    var faults := CountErrorFaults(e.value);
    errs := errs + faults;
    if canceled {
      var flags := CountTerminalFlags("canceled", e.value);
      errs := errs + flags;
    }
  }

  method CountSpanRequired(s: Span) returns (errs: nat)
    ensures errs == 0 <==> SpanRequired(s)
  {
    if s.kind == "model_call" || s.kind == "stream" {
      var required := ["genai.provider", "genai.model"];
      errs := CountMissing(s.attributes, required, false);
      var ints := CountMistyped(s.attributes, GENAI_INTS);
      assert required[0] == "genai.provider" && required[1] == "genai.model";
      errs := errs + ints;
    } else if s.kind == "tool_call" {
      var required := ["tool.name", "tool.call_id", "tool.kind", "tool.status"];
      errs := CountMissing(s.attributes, required, false);
      assert required[0] == "tool.name" && required[1] == "tool.call_id";
      assert required[2] == "tool.kind" && required[3] == "tool.status";
      if !s.end.IsZero() {
        var latency := CountMissing(s.attributes, ["tool.latency.ms"], true);
        assert ["tool.latency.ms"][0] == "tool.latency.ms";
        errs := errs + latency;
      }
    } else {
      errs := 0;
    }
  }

  method CountTerminalTool(status: string, e: Option<ErrorInfo>) returns (errs: nat)
    ensures errs == 0 <==> ValidTerminalTool(status, e)
  {
    match status {
      case "succeeded" => errs := 0;
      case "failed" => errs := CountToolError(e, false);
      case "canceled" => errs := CountToolError(e, true);
      case _ => errs := 1;
    }
  }

  method CountToolSpan(s: Span) returns (errs: nat)
    ensures errs == 0 <==> ValidToolSpan(s)
  {
    if s.kind != "tool_call" { return 0; }
    var status := Text(s.attributes, "tool.status");
    if status == "" { return 0; }
    if s.end.IsZero() { return One(status != "started"); }
    errs := CountTerminalTool(status, s.error);
  }

  /** One required attribute. */
  method CountOne(attrs: Attributes, key: string, wantInt: bool) returns (errs: nat)
    ensures errs == 0 <==> if wantInt then HasInt(attrs, key) else HasString(attrs, key)
  {
    errs := CountMissing(attrs, [key], wantInt);
    assert [key][0] == key;
  }

  method CountToolNames(attrs: Attributes, withCall: bool) returns (errs: nat)
    ensures errs == 0 <==>
              && HasString(attrs, "tool.name") && (withCall ==> HasString(attrs, "tool.call_id"))
              && HasString(attrs, "tool.kind") && HasString(attrs, "tool.status")
  {
    var name := CountOne(attrs, "tool.name", false);
    var kind := CountOne(attrs, "tool.kind", false);
    var status := CountOne(attrs, "tool.status", false);
    errs := name + kind + status;
    if withCall {
      var call := CountOne(attrs, "tool.call_id", false);
      errs := errs + call;
    }
  }

  /** The attributes that the name of an event requires. */
  method CountEventRequired(e: Event) returns (errs: nat)
    ensures errs == 0 <==> EventRequired(e)
  {
    errs := 0;
    match e.name {
      case "stream.chunk" => errs := CountOne(e.attributes, "stream.chunk.index", true);
      case "stream.first_token" => errs := CountOne(e.attributes, "genai.latency.first_token_ms", true);
      case "tool.registered" => errs := CountToolNames(e.attributes, false);
      case "tool.materialized" => errs := CountToolNames(e.attributes, true);
      case "tool.settled" => errs := CountToolNames(e.attributes, true);
      case "retry" =>
        var attempt := CountOne(e.attributes, "retry.attempt", true);
        var reason := CountOne(e.attributes, "retry.reason", false);
        errs := attempt + reason;
      case "compaction" => errs := CountOne(e.attributes, "compaction.reason", false);
      case "interrupt" => errs := CountOne(e.attributes, "interrupt.reason", false);
      case "resume" => errs := CountOne(e.attributes, "resume.reason", false);
      case "cancellation" => errs := CountOne(e.attributes, "cancellation.reason", false);
      case "redaction.applied" => errs := One(|e.redaction| == 0);
      case _ =>
    }
  }

  method CountToolEvent(e: Event) returns (errs: nat)
    ensures errs == 0 <==> ValidToolEvent(e)
  {
    errs := 0;
    var status := Text(e.attributes, "tool.status");
    if e.name == "tool.registered" {
      errs := One(status != "" && status != "registered");
    } else if e.name == "tool.materialized" {
      errs := One(status != "" && status != "materialized");
    } else if e.name == "tool.settled" && status != "" {
      errs := CountTerminalTool(status, e.error);
    }
  }

  method CountEventError(e: Event) returns (errs: nat)
    ensures errs == 0 <==> ValidEventError(e)
  {
    errs := 0;
    if e.name == "error" || e.name == "observation.error" {
      if e.error.None? { return 1; }
      errs := One(e.name == "observation.error" && e.error.value.dropped.None?);
    } else if e.name == "cancellation" {
      if e.error.None? { return 1; }
      errs := CountTerminalFlags("canceled", e.error.value);
    }
  }

  method CountEvent(e: Event) returns (errs: nat)
    ensures errs == 0 <==> ValidEvent(e)
  {
    errs := One(e.identity.id == "") + One(e.identity.trace == "");
    var attrs := CountBadAttributes(e.attributes);
    errs := errs + attrs + One(!ValidEventName(e.name));
    errs := errs + if e.timestamp.IsZero() then 1 else One(!e.timestamp.utc);
    errs := errs + One(e.status != "" && !ValidStatus(e.status));
    errs := errs + if e.category == "" then 1 else One(e.category != EventCategory(e.name));
    if e.error.Some? {
      var faults := CountErrorFaults(e.error.value);
      errs := errs + faults;
    }
    var required := CountEventRequired(e);
    var tool := CountToolEvent(e);
    var terminal := CountEventError(e);
    errs := errs + required + tool + terminal;
  }

  /** Span.Validate: it returns nil exactly when this count is 0. */
  method Validate(s: Span) returns (errs: nat)
    ensures errs == 0 <==> ValidSpan(s)
  {
    errs := One(s.identity.id == "") + One(s.identity.trace == "");
    var attrs := CountBadAttributes(s.attributes);
    errs := errs + attrs + One(s.kind !in SPAN_KINDS) + One(s.name == "") + One(!ValidStatus(s.status));
    errs := errs + if s.start.IsZero() then 1 else One(!s.start.utc);
    errs := errs + One(!s.end.IsZero() && s.end.Before(s.start)) + One(!s.end.IsZero() && !s.end.utc);
    if s.status == "error" || s.status == "canceled" { errs := errs + One(s.error.None?); }
    if s.error.Some? {
      var faults := CountErrorFaults(s.error.value);
      var flags := CountTerminalFlags(s.status, s.error.value);
      errs := errs + faults + flags;
    }
    var required := CountSpanRequired(s);
    var tool := CountToolSpan(s);
    errs := errs + required + tool;
    ghost var before := errs;
    for n := 0 to |s.events|
      invariant errs == 0 <==> before == 0 && forall i :: 0 <= i < n ==> ValidEvent(s.events[i])
    {
      var event := CountEvent(s.events[n]);
      errs := errs + event;
    }
  }
}

/** The redaction pipeline: what happens to each attribute, summary, event and span. */
module Redaction {
  import opened Model
  import opened Truncation
  import opened Names
  import opened KeyOrder

  const DEFAULT_MAX_SUMMARY_BYTES := 1024
  const MAX_NAME_BYTES := 128
  const MAX_MAP_ENTRIES := 32

  const DEFAULT_OMITTED := "default_omitted"
  const SUMMARY_DISABLED := "summary_disabled"
  const SUMMARY_TRUNCATED := "summary_truncated"
  const FIELD_LIMIT_EXCEEDED := "field_limit_exceeded"
  const ENCRYPTED_REASONING_FORBIDDEN := "encrypted_reasoning_forbidden"

  datatype Options = Options(captureInput: bool, captureOutput: bool, maxSummaryBytes: int)

  predicate ValidOptions(opts: Options) { opts.maxSummaryBytes >= 0 }

  function Limit(opts: Options): int {
    if opts.maxSummaryBytes == 0 then DEFAULT_MAX_SUMMARY_BYTES else opts.maxSummaryBytes
  }

  datatype Side = Input | Output

  predicate Enabled(side: Side, opts: Options) { if side.Input? then opts.captureInput else opts.captureOutput }

  // ----- Classifying a name.

  /** The position of the first occurrence, or -1. */
  function IndexOf(s: string, sub: string): (i: int)
    ensures -1 <= i <= |s|
    ensures i >= 0 ==> i + |sub| <= |s| && s[i..i + |sub|] == sub
  {
    if |s| < |sub| then -1
    else if s[..|sub|] == sub then 0
    else if s == "" then -1
    else var i := IndexOf(s[1..], sub); if i < 0 then -1 else i + 1
  }

  predicate IsEncryptedCanonical(c: string) { c == "encrypted_reasoning" || c == "reasoning_encrypted" }

  predicate IsEncryptedReasoning(name: string) { IsEncryptedCanonical(Canonical(name)) }

  const SENSITIVE := {
    "authorization", "api_key", "apikey", "x_api_key", "access_token", "refresh_token", "bearer_token",
    "token", "password", "secret", "client_secret", "cookie", "set_cookie"}

  predicate IsSensitive(name: string) { IsEncryptedReasoning(name) || Canonical(name) in SENSITIVE }

  function OmissionReason(name: string): string {
    if IsEncryptedReasoning(name) then ENCRYPTED_REASONING_FORBIDDEN else DEFAULT_OMITTED
  }

  function CanonicalSide(c: string): Option<Side> {
    if c == "genai_request_summary" || c == "tool_input_summary" || c == "compaction_summary" then Some(Input)
    else if c == "genai_response_summary" || c == "stream_chunk_summary" || c == "tool_output_summary" then Some(Output)
    else None
  }

  function SummarySide(key: string): Option<Side> { CanonicalSide(Canonical(key)) }

  const DOTTED_FIELDS := ".summary.fields."
  const CANONICAL_FIELDS := "_summary_fields_"

  /** Reads a key whose field marker of length `marker` begins at i; the marker's first `head`
      characters still belong to the summary's own name. */
  function FieldAt(text: string, i: nat, head: nat, marker: nat): Option<(Side, string)>
    requires head <= marker && i + marker <= |text|
  {
    match SummarySide(text[..i + head])
    case None => None
    case Some(side) => Some((side, TrimSpace(text[i + marker..])))
  }

  /** The side and the field name of a summary field attribute. */
  function SummaryField(key: string): Option<(Side, string)> {
    var trimmed := TrimSpace(key);
    var canonical := Canonical(trimmed);
    var dotted, normalized := IndexOf(trimmed, DOTTED_FIELDS), IndexOf(canonical, CANONICAL_FIELDS);
    if dotted >= 0 then FieldAt(trimmed, dotted, |".summary"|, |DOTTED_FIELDS|)
    else if normalized >= 0 then FieldAt(canonical, normalized, |"_summary"|, |CANONICAL_FIELDS|)
    else None
  }

  function MetadataName(key: string): Option<string> {
    var trimmed := TrimSpace(key);
    var canonical := Canonical(trimmed);
    if "metadata." <= trimmed then Some(trimmed[|"metadata."|..])
    else if "metadata_" <= canonical then Some(canonical[|"metadata_"|..])
    else None
  }

  /** Raw payload attributes, which are never kept. The exact names of the source that a
      prefix already covers are left out. */
  predicate RawPrefix(c: string) {
    || "prompt_" <= c || "model_input_" <= c || "model_output_" <= c || "tool_input_" <= c
    || "tool_output_" <= c || "attachment_" <= c || "attachments_" <= c || "reasoning_" <= c
    || "provider_request_" <= c || "provider_response_" <= c
  }

  predicate RawName(c: string) {
    || c == "prompt" || c == "model_input" || c == "model_output" || c == "tool_input"
    || c == "tool_output" || c == "attachment" || c == "attachments" || c == "reasoning"
    || c == "provider_request" || c == "provider_response"
  }

  predicate IsRawCanonical(c: string) {
    IsEncryptedCanonical(c) || (!("tool_input_summary_" <= c) && (RawPrefix(c) || RawName(c)))
  }

  predicate IsRawPayload(key: string) { IsRawCanonical(Canonical(key)) }

  // ----- One attribute.

  /** What happens to an attribute: it is kept, perhaps cut with a record, or it is omitted
      with exactly one record. */
  datatype Fate = Keep(value: Value, note: Option<Record>) | Omit(why: Record)

  function ByteLength(v: Value): nat {
    match v
    case Str(t) => |t|
    case Bytes(c) => |c|
    case _ => 0
  }

  function Bounded(path: string, text: string, limit: int): (string, Option<Record>) {
    var kept := Truncated(text, limit);
    (kept, if |kept| == |text| then None else Some(Record(path, SUMMARY_TRUNCATED, |text|, |kept|)))
  }

  function KeepBounded(path: string, text: string, opts: Options): Fate {
    var (kept, note) := Bounded(path, text, Limit(opts));
    Keep(Str(kept), note)
  }

  /** How the key alone decides: drop with a reason, cut when it is a string, or pass. */
  datatype PlainRule = Drop(reason: string) | Cut | Pass

  /** A summary text, a summary field (with the rule its non-string values fall back to), or
      an attribute that only the last tests of the source look at. */
  datatype Rule =
    | SummaryText(side: Side)
    | FieldText(side: Side, named: PlainRule, fallback: PlainRule)
    | Plain(rule: PlainRule)

  /** The checks on the name of a summary field or of a metadata entry. */
  function NameRule(name: string): PlainRule {
    if IsSensitive(name) then Drop(OmissionReason(name))
    else if |name| > MAX_NAME_BYTES then Drop(FIELD_LIMIT_EXCEEDED)
    else Cut
  }

  /** The last two tests: raw payloads, then metadata entries. */
  function PlainRuleFor(key: string): PlainRule {
    if IsRawPayload(key) then Drop(OmissionReason(key))
    else match MetadataName(key)
      case None => Pass
      case Some(name) => NameRule(name)
  }

  function RuleFor(key: string): Rule {
    match SummarySide(key)
    case Some(side) => SummaryText(side)
    case None =>
      match SummaryField(key)
      case None => Plain(PlainRuleFor(key))
      case Some((side, name)) => FieldText(side, NameRule(name), PlainRuleFor(key))
  }

  function PlainFate(rule: PlainRule, key: string, value: Value, opts: Options): Fate {
    match rule
    case Drop(reason) => Omit(Record(key, reason, ByteLength(value), 0))
    case Cut => if value.Str? then KeepBounded(key, value.text, opts) else Keep(value, None)
    case Pass => Keep(value, None)
  }

  function FateUnder(rule: Rule, key: string, value: Value, opts: Options): Fate {
    match rule
    case SummaryText(side) =>
      if !Enabled(side, opts) then Omit(Record(key, SUMMARY_DISABLED, 0, 0))
      else PlainFate(Cut, key, value, opts)
    case FieldText(side, named, fallback) =>
      if !Enabled(side, opts) then Omit(Record(key, SUMMARY_DISABLED, 0, 0))
      else if named.Drop? || value.Str? then PlainFate(named, key, value, opts)
      else PlainFate(fallback, key, value, opts)
    case Plain(plain) => PlainFate(plain, key, value, opts)
  }

  /** A classification of keys. The pipeline uses RuleFor; the laws hold for any. */
  type Rules = string -> Rule

  function AttributeFate(rules: Rules, key: string, value: Value, opts: Options): Fate {
    FateUnder(rules(key), key, value, opts)
  }

  function Notes(fate: Fate): seq<Record> {
    match fate
    case Omit(why) => [why]
    case Keep(_, None) => []
    case Keep(_, Some(note)) => [note]
  }

  // ----- A map of attributes.

  function Redacted(rules: Rules, attrs: Attributes, opts: Options): Attributes {
    map k | k in attrs && AttributeFate(rules, k, attrs[k], opts).Keep? :: AttributeFate(rules, k, attrs[k], opts).value
  }

  /** The records of the listed attributes, in the listed order. */
  function RecordsOf(rules: Rules, keys: seq<string>, attrs: Attributes, opts: Options): seq<Record>
    requires forall k :: k in keys ==> k in attrs
  {
    if keys == [] then []
    else
      var last := keys[|keys| - 1];
      RecordsOf(rules, keys[..|keys| - 1], attrs, opts) + Notes(AttributeFate(rules, last, attrs[last], opts))
  }

  ghost function Records(rules: Rules, attrs: Attributes, opts: Options): seq<Record> {
    RecordsOf(rules, SortedKeys(attrs.Keys), attrs, opts)
  }

  ghost predicate RedactedSoFar(rules: Rules, attrs: Attributes, opts: Options, seen: set<string>, out: Attributes)
    requires seen <= attrs.Keys
  {
    && (forall k :: k in out <==> k in seen && AttributeFate(rules, k, attrs[k], opts).Keep?)
    && (forall k :: k in out ==> out[k] == AttributeFate(rules, k, attrs[k], opts).value)
  }

  lemma OneMoreRedacted(rules: Rules, attrs: Attributes, opts: Options, seen: set<string>, out: Attributes, key: string)
    requires seen <= attrs.Keys && key in attrs && RedactedSoFar(rules, attrs, opts, seen, out)
    ensures var fate := AttributeFate(rules, key, attrs[key], opts);
            RedactedSoFar(rules, attrs, opts, seen + {key}, if fate.Keep? then out[key := fate.value] else out)
  {
  }

  lemma AllRedacted(rules: Rules, keys: seq<string>, attrs: Attributes, opts: Options, seen: set<string>,
                    out: Attributes)
    requires forall k :: k in keys <==> k in attrs
    requires seen <= attrs.Keys && forall i :: 0 <= i < |keys| ==> keys[i] in seen
    requires RedactedSoFar(rules, attrs, opts, seen, out)
    ensures out == Redacted(rules, attrs, opts)
  {
    assert seen == attrs.Keys;
  }

  /** The loop of the source, over a list of the keys. */
  method ApplyInOrder(rules: Rules, keys: seq<string>, attrs: Attributes, opts: Options)
      returns (out: Attributes, records: seq<Record>)
    requires forall k :: k in keys <==> k in attrs
    ensures out == Redacted(rules, attrs, opts) && records == RecordsOf(rules, keys, attrs, opts)
  {
    out, records := map[], [];
    ghost var seen: set<string> := {};
    for n := 0 to |keys|
      invariant seen <= attrs.Keys && forall i :: 0 <= i < n ==> keys[i] in seen
      invariant RedactedSoFar(rules, attrs, opts, seen, out)
      invariant records == RecordsOf(rules, keys[..n], attrs, opts)
    {
      var key := keys[n];
      assert key in keys;
      var fate := AttributeFate(rules, key, attrs[key], opts);
      OneMoreRedacted(rules, attrs, opts, seen, out, key);
      if fate.Keep? { out := out[key := fate.value]; }
      RecordsStep(rules, keys, n, attrs, opts);
      records := records + Notes(fate);
      seen := seen + {key};
    }
    assert keys[..|keys|] == keys;
    AllRedacted(rules, keys, attrs, opts, seen, out);
  }

  lemma RecordsStep(rules: Rules, keys: seq<string>, n: nat, attrs: Attributes, opts: Options)
    requires n < |keys| && forall k :: k in keys ==> k in attrs
    ensures RecordsOf(rules, keys[..n + 1], attrs, opts)
         == RecordsOf(rules, keys[..n], attrs, opts) + Notes(AttributeFate(rules, keys[n], attrs[keys[n]], opts))
  {
    assert keys[..n + 1][..n] == keys[..n];
  }

  method ApplyAttributes(attrs: Attributes, opts: Options)
      returns (failed: bool, out: Attributes, records: seq<Record>)
    ensures failed <==> !ValidOptions(opts)
    ensures !failed ==> out == Redacted(RuleFor, attrs, opts) && records == Records(RuleFor, attrs, opts)
  {
    failed, out, records := !ValidOptions(opts), map[], [];
    if !failed {
      var keys := SortKeys(attrs.Keys);
      out, records := ApplyInOrder(RuleFor, keys, attrs, opts);
    }
  }

  // ----- Spans and events.

  function RedactError(e: ErrorInfo): (ErrorInfo, seq<Record>) {
    if e.message != "" && (IsEncryptedReasoning(e.kind) || IsEncryptedReasoning(e.operation)) then
      (e.(message := ""), [Record("error.message", ENCRYPTED_REASONING_FORBIDDEN, 0, 0)])
    else (e, [])
  }

  function ErrorOf(e: Option<ErrorInfo>): Option<ErrorInfo> {
    if e.None? then None else Some(RedactError(e.value).0)
  }

  function ErrorNotes(e: Option<ErrorInfo>): seq<Record> { if e.None? then [] else RedactError(e.value).1 }

  ghost function RedactedEvent(rules: Rules, e: Event, opts: Options): Event {
    e.(attributes := Redacted(rules, e.attributes, opts),
       redaction := e.redaction + Records(rules, e.attributes, opts) + ErrorNotes(e.error),
       error := ErrorOf(e.error))
  }

  ghost function RedactedEvents(rules: Rules, events: seq<Event>, opts: Options): (out: seq<Event>)
    ensures |out| == |events|
  {
    seq(|events|, i requires 0 <= i < |events| => RedactedEvent(rules, events[i], opts))
  }

  ghost function RedactedSpan(rules: Rules, s: Span, opts: Options): Span {
    s.(attributes := Redacted(rules, s.attributes, opts),
       redaction := s.redaction + Records(rules, s.attributes, opts) + ErrorNotes(s.error),
       events := RedactedEvents(rules, s.events, opts),
       error := ErrorOf(s.error))
  }

  method ApplyEvent(e: Event, opts: Options) returns (failed: bool, out: Event)
    ensures failed <==> !ValidOptions(opts)
    ensures !failed ==> out == RedactedEvent(RuleFor, e, opts)
  {
    var attrs, records;
    failed, attrs, records := ApplyAttributes(e.attributes, opts);
    out := e;
    if failed { return; }
    out := out.(attributes := attrs, redaction := out.redaction + records);
    if out.error.Some? {
      var (redacted, notes) := RedactError(out.error.value);
      out := out.(error := Some(redacted), redaction := out.redaction + notes);
    }
  }

  /** The first n elements have been replaced. */
  ghost predicate Replaced<T>(before: seq<T>, done: seq<T>, n: nat, now: seq<T>) {
    |done| == |before| && n <= |before| && now == done[..n] + before[n..]
  }

  lemma ReplaceNext<T>(before: seq<T>, done: seq<T>, n: nat, now: seq<T>, x: T)
    requires Replaced(before, done, n, now) && n < |before| && x == done[n]
    ensures Replaced(before, done, n + 1, now[n := x])
  {
  }

  lemma RedactedEventAt(events: seq<Event>, n: nat, opts: Options)
    requires n < |events|
    ensures RedactedEvents(RuleFor, events, opts)[n] == RedactedEvent(RuleFor, events[n], opts)
  {
  }

  lemma NextReplaced(before: seq<Event>, n: nat, now: seq<Event>, redacted: Event, opts: Options)
    requires n < |before| && Replaced(before, RedactedEvents(RuleFor, before, opts), n, now)
    requires redacted == RedactedEvent(RuleFor, now[n], opts)
    ensures Replaced(before, RedactedEvents(RuleFor, before, opts), n + 1, now[n := redacted])
  {
    assert now[n] == before[n];
    RedactedEventAt(before, n, opts);
    ReplaceNext(before, RedactedEvents(RuleFor, before, opts), n, now, redacted);
  }

  method ApplyEventAt(before: seq<Event>, n: nat, now: seq<Event>, opts: Options) returns (out: seq<Event>)
    requires ValidOptions(opts) && n < |before| && Replaced(before, RedactedEvents(RuleFor, before, opts), n, now)
    ensures Replaced(before, RedactedEvents(RuleFor, before, opts), n + 1, out)
  {
    var _, redacted := ApplyEvent(now[n], opts);
    out := now[n := redacted];
    NextReplaced(before, n, now, redacted, opts);
  }

  /** The events are replaced one by one. */
  method ApplyEvents(before: seq<Event>, opts: Options) returns (events: seq<Event>)
    requires ValidOptions(opts)
    ensures events == RedactedEvents(RuleFor, before, opts)
  {
    events := before;
    for n := 0 to |before|
      invariant Replaced(before, RedactedEvents(RuleFor, before, opts), n, events)
    {
      events := ApplyEventAt(before, n, events, opts);
    }
  }

  /** Span redaction fails exactly on a negative limit, whatever the span. */
  method ApplySpan(s: Span, opts: Options) returns (failed: bool, out: Span)
    ensures failed <==> !ValidOptions(opts)
    ensures !failed ==> out == RedactedSpan(RuleFor, s, opts)
  {
    var attrs, records;
    failed, attrs, records := ApplyAttributes(s.attributes, opts);
    out := s;
    if failed { return; }
    var events := ApplyEvents(s.events, opts);
    out := out.(attributes := attrs, redaction := out.redaction + records, events := events);
    if out.error.Some? {
      var (redacted, notes) := RedactError(out.error.value);
      out := out.(error := Some(redacted), redaction := out.redaction + notes);
    }
  }
}

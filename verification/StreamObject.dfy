/** The stream handle as an object: each call's critical section on fields, with summaries
    taken through the redaction. */
module StreamObject {
  import opened Model
  import opened Truncation
  import opened Redaction
  import opened KeyWords
  import opened RawPayloads
  import opened Summaries
  import opened Streams
  import opened StreamSchema

  // ----- Summaries.

  ghost predicate TextsUnder(prefix: string, attrs: Attributes) {
    forall k :: k in attrs ==> prefix <= k && attrs[k].Str?
  }

  lemma {:induction false} MapAttributesUnder(prefix: string, path: string, entries: seq<Entry>, n: nat, opts: Options)
    requires n <= |entries|
    ensures TextsUnder(prefix, MapAttributes(EntryRuleFor, prefix, path, entries, n, opts))
  {
    if n > 0 {
      MapAttributesUnder(prefix, path, entries, n - 1, opts);
      assert prefix <= prefix + entries[n - 1].name;
    }
  }

  lemma UnderShorter(prefix: string, more: string, attrs: Attributes)
    requires TextsUnder(prefix + more, attrs)
    ensures TextsUnder(prefix, attrs)
  {
    forall k | k in attrs ensures prefix <= k {
      assert prefix == (prefix + more)[..|prefix|] == k[..|prefix|];
    }
  }

  lemma PartsUnder(key: string, path: string, summary: Summary, entries: seq<Entry>, opts: Options)
    ensures TextsUnder(key, SummaryParts(key, path, summary.name, summary.text, entries, opts))
  {
    MapAttributesUnder(key + ".fields.", path + ".fields.", entries, |entries|, opts);
    UnderShorter(key, ".fields.",
                 MapAttributes(EntryRuleFor, key + ".fields.", path + ".fields.", entries, |entries|, opts));
    assert key <= key + ".name";
    assert TextsUnder(key, TextAttribute(key, summary.text, opts));
    assert TextsUnder(key, NameAttribute(key, summary.name));
  }

  predicate NoSummary(summary: Summary) { summary == Summary("", "", map[]) }

  /** What the redaction makes of a summary. Nothing, when it is empty or the limit is negative;
      one record, when it may not be kept; and otherwise its parts with their records, for the
      entries in some order the sort may give. */
  ghost predicate CapturedBy(key: string, side: Side, summary: Summary, opts: Options, captured: Captured) {
    if NoSummary(summary) || !ValidOptions(opts) then captured == Captured(map[], [])
    else
      match SummaryFault(key, side, summary.name, opts)
      case Some(fault) => captured == Captured(map[], [fault])
      case None => exists entries ::
              SortedEntries(entries, summary.fields) && captured == PartsOf(key, summary, entries, opts)
  }

  function PartsOf(key: string, summary: Summary, entries: seq<Entry>, opts: Options): Captured {
    Captured(SummaryParts(key, key, summary.name, summary.text, entries, opts),
             SummaryRecords(key, summary.text, entries, opts))
  }

  /** All the texts of a capture are under its key, as the validity of exported spans needs. */
  lemma CapturedUnder(key: string, side: Side, summary: Summary, opts: Options, captured: Captured)
    requires CapturedBy(key, side, summary, opts, captured)
    ensures Under(key, captured)
  {
    forall entries | captured == PartsOf(key, summary, entries, opts) ensures Under(key, captured) {
      PartsUnder(key, key, summary, entries, opts);
    }
  }

  /** When the trimmed field names are distinct there is only one such capture. */
  lemma CaptureUnique(key: string, side: Side, summary: Summary, opts: Options, a: Captured, b: Captured)
    requires DistinctTrimmedKeys(summary.fields)
    requires CapturedBy(key, side, summary, opts, a) && CapturedBy(key, side, summary, opts, b)
    ensures a == b
  {
    if !NoSummary(summary) && ValidOptions(opts) && SummaryFault(key, side, summary.name, opts).None? {
      var x :| SortedEntries(x, summary.fields) && a == PartsOf(key, summary, x, opts);
      var y :| SortedEntries(y, summary.fields) && b == PartsOf(key, summary, y, opts);
      SortedEntriesUnique(x, y, summary.fields);
    }
  }

  method ModelSummaryAttributes(key: string, side: Side, summary: Summary, opts: Options) returns (captured: Captured)
    requires key != ""
    ensures CapturedBy(key, side, summary, opts, captured) && Under(key, captured)
  {
    if summary.name == "" && summary.text == "" && |summary.fields| == 0 { return Captured(map[], []); }
    var failed, attrs, records;
    ghost var entries;
    failed, attrs, records, entries := SummaryAttributes(key, key, side, summary, opts);
    captured := if failed then Captured(map[], []) else Captured(attrs, records);
    if !failed && SummaryFault(key, side, summary.name, opts).None? {
      assert captured == PartsOf(key, summary, entries, opts);
    }
    CapturedUnder(key, side, summary, opts, captured);
  }

  /** Why a summary is refused, and what it holds when it is not. */
  lemma CaptureHolds(key: string, side: Side, summary: Summary, opts: Options, captured: Captured)
    requires CapturedBy(key, side, summary, opts, captured) && ValidOptions(opts) && !NoSummary(summary)
    ensures var name, why := summary.name, if SpellsEncrypted(summary.name) then ENCRYPTED_REASONING_FORBIDDEN
                                           else DEFAULT_OMITTED;
            if !Enabled(side, opts) then captured == Captured(map[], [Record(key, SUMMARY_DISABLED, 0, 0)])
            else if SpellsSecret(name) then captured == Captured(map[], [Record(key, why, 0, 0)])
            else if |name| > MAX_NAME_BYTES then
              captured == Captured(map[], [Record(key + ".name", FIELD_LIMIT_EXCEEDED, |name|, 0)])
            else
              var attrs := captured.attributes;
              && (name != "" ==> key + ".name" in attrs && attrs[key + ".name"] == Str(name))
              && (summary.text != "" ==> key in attrs && attrs[key] == Str(Truncated(summary.text, Limit(opts))))
              && forall f :: key + ".fields." + f in attrs ==> GoodName(f)
  {
    SensitiveIff(summary.name);
    EncryptedIff(summary.name);
    assert summary.name == "" ==> !IsSensitive("");
    if SummaryFault(key, side, summary.name, opts).None? {
      var entries :| SortedEntries(entries, summary.fields) && captured == PartsOf(key, summary, entries, opts);
      PartsHold(key, summary, entries, opts);
    }
  }

  lemma {:induction false} FieldsAreGood(prefix: string, path: string, entries: seq<Entry>, n: nat, opts: Options)
    requires n <= |entries|
    ensures forall f :: prefix + f in MapAttributes(EntryRuleFor, prefix, path, entries, n, opts) ==> GoodName(f)
    ensures forall k :: k in MapAttributes(EntryRuleFor, prefix, path, entries, n, opts) ==> prefix <= k
  {
    if n > 0 {
      FieldsAreGood(prefix, path, entries, n - 1, opts);
      SensitiveIff(entries[n - 1].name);
      forall f ensures prefix + f == prefix + entries[n - 1].name <==> f == entries[n - 1].name {
        SamePrefix(prefix, f, entries[n - 1].name);
      }
    }
  }

  lemma PartsHold(key: string, summary: Summary, entries: seq<Entry>, opts: Options)
    ensures var attrs := SummaryParts(key, key, summary.name, summary.text, entries, opts);
            && (summary.name != "" ==> key + ".name" in attrs && attrs[key + ".name"] == Str(summary.name))
            && (summary.text != "" ==> key in attrs && attrs[key] == Str(Truncated(summary.text, Limit(opts))))
            && forall f :: key + ".fields." + f in attrs ==> GoodName(f)
  {
    var prefix := key + ".fields.";
    var fields := MapAttributes(EntryRuleFor, prefix, key + ".fields.", entries, |entries|, opts);
    FieldsAreGood(prefix, key + ".fields.", entries, |entries|, opts);
    assert prefix[|key| + 1] == 'f' && (key + ".name")[|key| + 1] == 'n';
    assert key + ".name" !in fields && key !in fields;
    forall f | prefix + f in SummaryParts(key, key, summary.name, summary.text, entries, opts) ensures GoodName(f) {
      assert (prefix + f)[|key| + 1] == 'f' && |prefix + f| > |key|;
      assert prefix + f in fields;
    }
  }

  // ----- The object.

  class Stream {
    const h: Handle
    const opts: Options
    var ended: bool
    var firstTokenEmitted: bool
    var firstTokenMs: int
    var events: seq<Observation>

    ghost function Contents(): Progress
      reads this
    {
      Progress(ended, firstTokenEmitted, firstTokenMs, events)
    }

    constructor (handle: Handle, start: Progress, options: Options)
      ensures h == handle && Contents() == start && opts == options
    {
      h, opts := handle, options;
      ended, events := start.ended, start.events;
      firstTokenEmitted, firstTokenMs := start.firstTokenEmitted, start.firstTokenMs;
    }

    // The sections, for any way to make events.

    method PutChunk(event: Call -> Observation, ms: Call -> int, call: Call)
      requires call.Chunk?
      modifies this
      ensures (Contents(), false) == Advance(event, ms, old(Contents()), call)
    {
      if ended { return; }
      events := events + [event(call)];
    }

    method PutFirstToken(event: Call -> Observation, ms: Call -> int, call: Call)
      requires call.FirstToken?
      modifies this
      ensures (Contents(), false) == Advance(event, ms, old(Contents()), call)
    {
      if ended || firstTokenEmitted { return; }
      firstTokenEmitted := true;
      firstTokenMs := ms(call);
      events := events + [event(call)];
    }

    method PutEnd(event: Call -> Observation, ms: Call -> int, call: Call) returns (exports: bool)
      requires Terminal(call)
      modifies this
      ensures (Contents(), exports) == Advance(event, ms, old(Contents()), call)
    {
      if ended { return false; }
      ended := true;
      assert events + [] == events && (StatusOf(call) == "canceled" <==> Canceled(call));
      if StatusOf(call) == "canceled" { events := events + [event(call)]; }
      exports := true;
    }

    // The calls. Each returns what it is to the state machine.

    method AddChunk(index: int, at: Time, summary: Summary, metadata: Metadata, now: Time) returns (ghost call: Call)
      modifies this
      ensures call.Chunk? && call == Chunk(index, at, call.captured, metadata, now)
      ensures CapturedBy(CHUNK, Output, summary, opts, call.captured) && Under(CHUNK, call.captured)
      ensures (Contents(), None) == Step(h, old(Contents()), call)
    {
      var captured := ModelSummaryAttributes(CHUNK, Output, summary, opts);
      call := Chunk(index, at, captured, metadata, now);
      PutChunk(EventMaker(h), Timer(h), Chunk(index, at, captured, metadata, now));
    }

    method AddFirstToken(at: Time, latency: int, metadata: Metadata, now: Time)
      modifies this
      ensures (Contents(), None) == Step(h, old(Contents()), FirstToken(at, latency, metadata, now))
    {
      PutFirstToken(EventMaker(h), Timer(h), FirstToken(at, latency, metadata, now));
    }

    method Finish(call: Call) returns (exported: Option<Observation>)
      requires Terminal(call)
      modifies this
      ensures (Contents(), exported) == Step(h, old(Contents()), call)
    {
      var exports := PutEnd(EventMaker(h), Timer(h), call);
      exported := None;
      if exports {
        exported := Some(FinalObservation(h, Progress(ended, firstTokenEmitted, firstTokenMs, events), call));
      }
    }

    method EndNow(at: Time, usage: Usage, summary: Summary, metadata: Metadata, now: Time)
        returns (exported: Option<Observation>, ghost call: Call)
      modifies this
      ensures call.End? && call == End(at, usage, call.captured, metadata, now)
      ensures CapturedBy(RESPONSE, Output, summary, opts, call.captured) && Under(RESPONSE, call.captured)
      ensures (Contents(), exported) == Step(h, old(Contents()), call)
    {
      var captured := ModelSummaryAttributes(RESPONSE, Output, summary, opts);
      call := End(at, usage, captured, metadata, now);
      exported := Finish(End(at, usage, captured, metadata, now));
    }

    method Fail(classification: string, message: Option<string>, canceled: bool, retryable: bool, at: Time,
                usage: Usage, summary: Summary, metadata: Metadata, now: Time)
        returns (exported: Option<Observation>, ghost call: Call)
      modifies this
      ensures call.Error?
      ensures call == Error(classification, message, canceled, retryable, at, usage, call.captured, metadata, now)
      ensures CapturedBy(RESPONSE, Output, summary, opts, call.captured) && Under(RESPONSE, call.captured)
      ensures (Contents(), exported) == Step(h, old(Contents()), call)
    {
      var captured := ModelSummaryAttributes(RESPONSE, Output, summary, opts);
      call := Error(classification, message, canceled, retryable, at, usage, captured, metadata, now);
      exported := Finish(Error(classification, message, canceled, retryable, at, usage, captured, metadata, now));
    }
  }

  /** Opens a stream on a summary as it was handed in: `taken` is the opening
      with what the redaction made of it. */
  method OpenStream(o: Opening, summary: Summary, opts: Options) returns (stream: Stream, ghost taken: Opening)
    ensures fresh(stream) && stream.opts == opts && (stream.h, stream.Contents()) == StartStream(taken)
    ensures taken == o.(captured := taken.captured)
    ensures CapturedBy(REQUEST, Input, summary, opts, taken.captured) && Under(REQUEST, taken.captured)
  {
    var captured := ModelSummaryAttributes(REQUEST, Input, summary, opts);
    var (handle, start) := Streams.StartStream(o.(captured := captured));
    taken := o.(captured := captured);
    stream := new Stream(handle, start, opts);
  }
}

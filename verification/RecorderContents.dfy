/** What the recorder's spans hold: what was handed in, redacted. */
module RecorderContents {
  import opened Model
  import opened Redaction
  import opened Recorder
  import opened RecorderRuns
  import Forbidden
  import KeyWords
  import RawPayloads
  import SchemaPreserved

  // ----- A property of spans that redaction gives and numbering keeps.

  /** The span has the property, and keeps it whatever number it is given. */
  ghost predicate Clean(good: Span -> bool, span: Span) { good(span) && forall n: int :: good(Stamp(span, n)) }

  ghost predicate AllGood(s: Store, good: Span -> bool) {
    && (forall x :: x in s.recorded ==> good(x)) && (forall x :: x in s.pending ==> good(x))
    && (forall d :: d in s.dropped ==> good(d.span)) && (forall x :: x in s.discarded ==> good(x))
    && (forall x :: x in s.stamped ==> good(x))
  }

  lemma HandleGood(cfg: Config, each: Each, s: Store, span: Span, good: Span -> bool)
    requires AllGood(s, good) && good(span)
    requires each.Delivering? || each.Losing? || Clean(good, span)
    ensures AllGood(Handle(cfg, each, s, span), good)
  {
  }

  lemma {:induction false} LoopGood(cfg: Config, each: Each, s: Store, spans: seq<Span>, good: Span -> bool)
    requires AllGood(s, good) && forall x :: x in spans ==> good(x)
    requires each.Delivering? || each.Losing? || forall x :: x in spans ==> Clean(good, x)
    ensures AllGood(HandleAll(cfg, each, s, spans), good)
  {
    if spans != [] {
      var n := |spans| - 1;
      assert spans[n] in spans && forall x :: x in spans[..n] ==> x in spans;
      LoopGood(cfg, each, s, spans[..n], good);
      HandleGood(cfg, each, HandleAll(cfg, each, s, spans[..n]), spans[n], good);
    }
  }

  lemma FlushGood(cfg: Config, s: Store, good: Span -> bool)
    requires AllGood(s, good)
    ensures AllGood(CommitFlush(cfg, s).0, good)
  {
    var counted := CountCall(s, Exporting);
    LoopGood(cfg, Delivering, counted, s.pending, good);
    match Matching(cfg.onExport, Count(counted, Exporting)) {
      case Some(f) => LoopGood(cfg, Losing(InjectedError(Exporting, f)), counted, s.pending, good);
      case None =>
    }
  }

  lemma ExportGood(cfg: Config, s: Store, spans: seq<Span>, good: Span -> bool)
    requires AllGood(s, good) && forall x :: x in spans ==> Clean(good, x)
    ensures AllGood(CommitExport(cfg, s, spans).0, good)
  {
    LoopGood(cfg, if s.shutdown then Closing else Accepting, s, spans, good);
  }

  lemma InjectedGood(cfg: Config, s: Store, f: Failure, spans: seq<Span>, good: Span -> bool)
    requires AllGood(s, good) && forall x :: x in spans ==> Clean(good, x)
    ensures AllGood(CommitInjectedExport(cfg, s, f, spans).0, good)
  {
    var e := InjectedError(Exporting, f);
    LoopGood(cfg, if e.retryable && !e.dropped then Queueing else Refusing(e), s, spans, good);
  }

  /** The spans of a call, redacted, have the property and keep it. */
  ghost predicate CallClean(cfg: Config, call: Call, good: Span -> bool) {
    && (call.RecordCall? ==> Clean(good, RedactedSpan(RuleFor, call.span, cfg.redaction)))
    && (call.ExportCall? ==> forall x :: x in RedactAll(cfg, call.batch) ==> Clean(good, x))
  }

  lemma CommitGood(cfg: Config, epoch: nat, s: Store, l: Local, good: Span -> bool)
    requires AllGood(s, good) && CallClean(cfg, l.call, good)
    ensures AllGood(Commit(cfg, epoch, s, l).0, good)
  {
    match l.call
    case RecordCall(_, span) => HandleGood(cfg, Accepting, s, RedactedSpan(RuleFor, span, cfg.redaction), good);
    case ExportCall(_, batch) =>
      ExportGood(cfg, s, RedactAll(cfg, batch), good);
      match Matching(cfg.onExport, l.index) {
        case Some(f) => InjectedGood(cfg, s, f, RedactAll(cfg, batch), good);
        case None =>
      }
    case FlushCall(_) => FlushGood(cfg, s, good);
    case ShutdownCall(_) =>
  }

  ghost predicate StepClean(cfg: Config, step: Step,
                            good: Span -> bool) { step.Start? ==> CallClean(cfg, step.call, good) }

  ghost predicate SystemGood(cfg: Config, sys: System, good: Span -> bool) {
    AllGood(sys.store, good) && forall id :: id in sys.running ==> CallClean(cfg, sys.running[id].call, good)
  }

  lemma StepGood(cfg: Config, sys: System, step: Step, good: Span -> bool)
    requires SystemGood(cfg, sys, good) && StepClean(cfg, step, good)
    ensures SystemGood(cfg, Next(cfg, sys, step), good)
  {
    if step.Finish? && step.id in sys.running {
      CommitGood(cfg, sys.epoch, sys.store, sys.running[step.id], good);
    }
  }

  /** A property that every span handed in has once redacted, and keeps when numbered, is one
      of all spans in every state of every interleaving. */
  lemma {:induction false} RunGood(cfg: Config, sys: System, steps: seq<Step>, good: Span -> bool)
    requires SystemGood(cfg, sys, good) && forall i :: 0 <= i < |steps| ==> StepClean(cfg, steps[i], good)
    ensures SystemGood(cfg, Run(cfg, sys, steps), good)
    decreases |steps|
  {
    if steps != [] {
      StepGood(cfg, sys, steps[0], good);
      RunGood(cfg, Next(cfg, sys, steps[0]), steps[1..], good);
    }
  }

  // ----- Nothing forbidden.

  /** The span holds no attribute with this key, nor does an event, and no message of an error
      about encrypted reasoning. */
  ghost predicate Without(k: string, span: Span) {
    && k !in span.attributes && (Forbidden.EncryptedError(span.error) ==> span.error.value.message == "")
    && forall i :: 0 <= i < |span.events| ==>
         && k !in span.events[i].attributes
         && (Forbidden.EncryptedError(span.events[i].error) ==> span.events[i].error.value.message == "")
  }

  /** Neither attribute that numbering writes is forbidden. */
  lemma StampsAreAllowed(k: string)
    requires Forbidden.ForbiddenKey(k)
    ensures k != "sequence" && k != "span_event_sequence"
  {
    if k == "sequence" || k == "span_event_sequence" { Forbidden.SequenceAllowed(k); }
  }

  lemma StampWithout(k: string, span: Span, n: int)
    requires Without(k, span) && k != "sequence" && k != "span_event_sequence"
    ensures Without(k, Stamp(span, n))
  {
  }

  lemma RedactedWithout(cfg: Config, k: string, span: Span, out: Span)
    requires Forbidden.ForbiddenKey(k) && out == RedactedSpan(RuleFor, span, cfg.redaction)
    ensures Without(k, out)
  {
    Forbidden.SpanHoldsNothingForbidden(span, cfg.redaction, out, k, 0);
    forall i: nat | i < |out.events|
      ensures k !in out.events[i].attributes
      ensures Forbidden.EncryptedError(out.events[i].error) ==> out.events[i].error.value.message == ""
    {
      Forbidden.SpanHoldsNothingForbidden(span, cfg.redaction, out, k, i);
    }
  }

  lemma RedactedCleanWithout(cfg: Config, k: string, span: Span, out: Span)
    requires Forbidden.ForbiddenKey(k) && out == RedactedSpan(RuleFor, span, cfg.redaction)
    ensures Clean(x => Without(k, x), out)
  {
    RedactedWithout(cfg, k, span, out);
    StampsAreAllowed(k);
    forall n: int ensures Without(k, Stamp(out, n)) { StampWithout(k, out, n); }
  }

  lemma CallCleanWithout(cfg: Config, k: string, call: Call)
    requires Forbidden.ForbiddenKey(k)
    ensures CallClean(cfg, call, x => Without(k, x))
  {
    if call.RecordCall? {
      RedactedCleanWithout(cfg, k, call.span, RedactedSpan(RuleFor, call.span, cfg.redaction));
    } else if call.ExportCall? {
      var spans := RedactAll(cfg, call.batch);
      forall x | x in spans ensures Clean(y => Without(k, y), x) {
        var i :| 0 <= i < |spans| && spans[i] == x;
        RedactedCleanWithout(cfg, k, call.batch[i], x);
      }
    }
  }

  /** Over every interleaving, no span the recorder holds, wherever it is, holds anything
      forbidden. */
  lemma NothingForbiddenHeld(cfg: Config, steps: seq<Step>, k: string)
    requires Forbidden.ForbiddenKey(k)
    ensures AllGood(Run(cfg, INITIAL, steps).store, x => Without(k, x))
  {
    var good := x => Without(k, x);
    forall i | 0 <= i < |steps| ensures StepClean(cfg, steps[i], good) {
      if steps[i].Start? { CallCleanWithout(cfg, k, steps[i].call); }
    }
    RunGood(cfg, INITIAL, steps, good);
  }

  // ----- No raw payload.

  /** The span holds no attribute with this key, nor does an event. */
  ghost predicate Lacks(k: string, span: Span) {
    k !in span.attributes && forall i :: 0 <= i < |span.events| ==> k !in span.events[i].attributes
  }

  lemma StampLacks(k: string, span: Span, n: int)
    requires Lacks(k, span) && k != "sequence" && k != "span_event_sequence"
    ensures Lacks(k, Stamp(span, n))
  {
  }

  lemma RedactedCleanLacks(cfg: Config, k: string, span: Span, out: Span)
    requires KeyWords.BeginsRaw(k) && RawPayloads.Never(RuleFor(k))
    requires out == RedactedSpan(RuleFor, span, cfg.redaction)
    ensures Clean(x => Lacks(k, x), out)
  {
    RawPayloads.NeverSurvives(span.attributes, cfg.redaction, k);
    forall i | 0 <= i < |out.events| ensures k !in out.events[i].attributes {
      RawPayloads.NeverSurvives(span.events[i].attributes, cfg.redaction, k);
    }
    RawPayloads.StampsAreNotRaw(k);
    forall n: int ensures Lacks(k, Stamp(out, n)) { StampLacks(k, out, n); }
  }

  lemma CallCleanLacks(cfg: Config, k: string, call: Call)
    requires KeyWords.BeginsRaw(k) && RawPayloads.Never(RuleFor(k))
    ensures CallClean(cfg, call, x => Lacks(k, x))
  {
    if call.RecordCall? {
      RedactedCleanLacks(cfg, k, call.span, RedactedSpan(RuleFor, call.span, cfg.redaction));
    } else if call.ExportCall? {
      var spans := RedactAll(cfg, call.batch);
      forall x | x in spans ensures Clean(y => Lacks(k, y), x) {
        var i :| 0 <= i < |spans| && spans[i] == x;
        RedactedCleanLacks(cfg, k, call.batch[i], x);
      }
    }
  }

  /** Over every interleaving, no span the recorder holds, wherever it is, holds a raw payload
      that is not let through as a summary. */
  lemma NoRawPayloadHeld(cfg: Config, steps: seq<Step>, k: string)
    requires KeyWords.BeginsRaw(k) && !RawPayloads.LetThrough(k)
    ensures AllGood(Run(cfg, INITIAL, steps).store, x => Lacks(k, x))
  {
    var good := x => Lacks(k, x);
    RawPayloads.RawRule(k);
    forall i | 0 <= i < |steps| ensures StepClean(cfg, steps[i], good) {
      if steps[i].Start? { CallCleanLacks(cfg, k, steps[i].call); }
    }
    RunGood(cfg, INITIAL, steps, good);
  }

  // ----- Valid spans stay valid.

  /** Not a key that validation looks at. */
  predicate OffSchema(k: string) { |k| > 1 && k[0] == 's' && k[1] != 't' }

  lemma OffSchemaAgrees(attrs: Attributes, key: string, v: Value)
    requires OffSchema(key)
    ensures SchemaPreserved.AgreeOnSchema(attrs, attrs[key := v])
  {
    forall i | 0 <= i < |GENAI_INTS| ensures GENAI_INTS[i] != key { assert GENAI_INTS[i][0] == 'g'; }
  }

  lemma SameEventValid(e: Event, out: Event)
    requires ValidEvent(e) && out == e.(attributes := out.attributes) && ValidAttributes(out.attributes)
    requires SchemaPreserved.AgreeOnSchema(e.attributes, out.attributes)
    ensures ValidEvent(out)
  {
    assert e.redaction + [] == e.redaction;
    SchemaPreserved.EventRequiredAgrees(e, out.attributes, []);
    assert Text(out.attributes, "tool.status") == Text(e.attributes, "tool.status");
  }

  lemma StampedEventValid(e: Event, index: int, out: Event)
    requires ValidEvent(e) && out == StampEvent(e, index)
    ensures ValidEvent(out)
  {
    OffSchemaAgrees(e.attributes, "span_event_sequence", Int64(index));
    SameEventValid(e, out);
  }

  lemma SameSpanValid(s: Span, out: Span)
    requires ValidSpan(s) && out == s.(attributes := out.attributes, events := out.events) &&
             ValidAttributes(out.attributes)
    requires SchemaPreserved.AgreeOnSchema(s.attributes, out.attributes)
    requires forall i :: 0 <= i < |out.events| ==> ValidEvent(out.events[i])
    ensures ValidSpan(out)
  {
    SchemaPreserved.SpanRequiredAgrees(s, out);
    assert Text(out.attributes, "tool.status") == Text(s.attributes, "tool.status");
  }

  /** Numbering keeps a span valid. */
  lemma StampedSpanValid(s: Span, n: int, out: Span)
    requires ValidSpan(s) && out == Stamp(s, n)
    ensures ValidSpan(out)
  {
    OffSchemaAgrees(s.attributes, "sequence", Int64(n));
    forall i | 0 <= i < |out.events| ensures ValidEvent(out.events[i]) {
      StampedEventValid(s.events[i], i + 1, out.events[i]);
    }
    SameSpanValid(s, out);
  }

  ghost predicate IsValid(span: Span) { ValidSpan(span) }

  lemma RedactedCleanValid(cfg: Config, span: Span, out: Span)
    requires ValidSpan(span) && out == RedactedSpan(RuleFor, span, cfg.redaction)
    ensures Clean(IsValid, out)
  {
    SchemaPreserved.RedactionPreservesSchema(span, cfg.redaction);
    forall n: int ensures IsValid(Stamp(out, n)) { StampedSpanValid(out, n, Stamp(out, n)); }
  }

  /** The spans handed to a call are valid. */
  ghost predicate HandsInValid(step: Step) {
    step.Start? ==>
      && (step.call.RecordCall? ==> IsValid(step.call.span))
      && (step.call.ExportCall? ==> forall x :: x in step.call.batch ==> IsValid(x))
  }

  lemma CallCleanValid(cfg: Config, step: Step)
    requires HandsInValid(step)
    ensures StepClean(cfg, step, IsValid)
  {
    if step.Start? && step.call.RecordCall? {
      RedactedCleanValid(cfg, step.call.span, RedactedSpan(RuleFor, step.call.span, cfg.redaction));
    } else if step.Start? && step.call.ExportCall? {
      var spans := RedactAll(cfg, step.call.batch);
      forall x | x in spans ensures Clean(IsValid, x) {
        var i :| 0 <= i < |spans| && spans[i] == x;
        assert step.call.batch[i] in step.call.batch;
        RedactedCleanValid(cfg, step.call.batch[i], x);
      }
    }
  }

  /** Over every interleaving to which only valid spans are handed, every span the recorder
      holds is valid. */
  lemma HeldSpansAreValid(cfg: Config, steps: seq<Step>)
    requires forall i :: 0 <= i < |steps| ==> HandsInValid(steps[i])
    ensures AllGood(Run(cfg, INITIAL, steps).store, IsValid)
  {
    forall i | 0 <= i < |steps| ensures StepClean(cfg, steps[i], IsValid) { CallCleanValid(cfg, steps[i]); }
    RunGood(cfg, INITIAL, steps, IsValid);
  }
}

/** The recorder's store and the critical sections of its operations.

    Every operation of the source holds the lock twice at most: once when it begins, and once
    when it commits. What happens in between reads only values that never change, so it is
    part of the commit here. The sections are functions on the store; RecorderRuns interleaves
    them and RecorderState performs them on fields. */
module Recorder {
  import opened Model
  import opened Redaction

  const HISTORY_SIZE := 256

  datatype Operation = Recording | Exporting | Flushing | ShuttingDown | Redacting

  datatype ObsError = ObsError(operation: Operation, classification: string, retryable: bool, dropped: bool)

  datatype Reason = OverCapacity | AfterShutdown | Injected

  datatype Dropped = Dropped(span: Span, reason: Reason, error: ObsError)

  datatype Failure = Failure(atCall: int, classification: string, retryable: bool, dropped: bool)

  /** For one operation: a single failure and a list of rules. */
  datatype Plan = Plan(single: Option<Failure>, rules: seq<Failure>)

  datatype Config = Config(redaction: Options, capacity: int, onExport: Plan, onFlush: Plan, onShutdown: Plan)

  /** Whether a recorded span was accepted directly or delivered by a flush. */
  datatype Origin = Direct | Delivered

  /** The bounded error history. `log` is a history variable: every error remembered. */
  datatype History = History(errors: seq<ObsError>, lastError: Option<ObsError>, droppedErrors: nat, log: seq<ObsError>)

  /** One attempt of an operation, with the call index that failure rules are matched against. */
  datatype Attempt = Attempt(operation: Operation, index: int)

  /** The call counters. `attempts` is a history variable: every attempt that was counted. */
  datatype Counters = Counters(
    record: nat, export_: nat, flush: nat, shutdown: nat, byOperation: map<Operation, nat>, attempts: seq<Attempt>)

  /** What the lock protects, but for the epoch. Three history variables, which no operation
      reads: `discarded`, the pending spans a successful shutdown threw away, `origins`, how
      each recorded span came in, and `stamped`, every span that was numbered, as numbered. */
  datatype Store = Store(
    recorded: seq<Span>, pending: seq<Span>, dropped: seq<Dropped>, history: History, dirty: bool, counters: Counters,
    lastFlushError: Option<ObsError>, lastShutdownError: Option<ObsError>, sequence: nat, shutdown: bool,
    discarded: seq<Span>, origins: seq<Origin>, stamped: seq<Span>)

  const EMPTY := Store(
    [], [], [], History([], None, 0, []), false, Counters(0, 0, 0, 0, map[], []), None, None, 0, false, [], [], [])

  function CountIn(c: Counters, op: Operation): nat { if op in c.byOperation then c.byOperation[op] else 0 }

  function Count(s: Store, op: Operation): nat { CountIn(s.counters, op) }

  // ----- Failure injection.

  predicate Matches(f: Failure, call: int) { f.atCall <= 0 || f.atCall == call }

  /** The first rule that matches, and otherwise the single failure if it matches. */
  function Matching(plan: Plan, call: int): Option<Failure>
    decreases |plan.rules|
  {
    if plan.rules == [] then
      if plan.single.Some? && Matches(plan.single.value, call) then plan.single else None
    else if Matches(plan.rules[0], call) then Some(plan.rules[0])
    else Matching(Plan(plan.single, plan.rules[1..]), call)
  }

  function InjectedError(op: Operation, f: Failure): ObsError {
    ObsError(op, if f.classification == "" then "injected_failure" else f.classification, f.retryable, f.dropped)
  }

  function CapacityError(op: Operation): ObsError { ObsError(op, "capacity", false, true) }

  const CLOSED := ObsError(Exporting, "exporter_closed", false, true)

  // ----- Stamps.

  function StampEvent(e: Event, index: int): Event {
    e.(attributes := e.attributes["span_event_sequence" := Int64(index)])
  }

  function StampEvents(events: seq<Event>): seq<Event> {
    seq(|events|, i requires 0 <= i < |events| => StampEvent(events[i], i + 1))
  }

  function Stamp(span: Span, sequence: int): Span {
    span.(attributes := span.attributes["sequence" := Int64(sequence)], events := StampEvents(span.events))
  }

  /** The sequence number a span carries. */
  function StampOf(span: Span): int {
    if "sequence" in span.attributes && span.attributes["sequence"].Int64? then span.attributes["sequence"].i else 0
  }

  lemma StampReadsBack(span: Span, sequence: int)
    ensures StampOf(Stamp(span, sequence)) == sequence
  {
  }

  /** The events carry 1, 2 and so on. */
  predicate EventsNumbered(span: Span) {
    forall i :: 0 <= i < |span.events| ==>
      var attrs := span.events[i].attributes;
      "span_event_sequence" in attrs && attrs["span_event_sequence"] == Int64(i + 1)
  }

  /** Numbering gives the span its number, its events theirs, and changes nothing else. */
  lemma StampLaws(span: Span, n: int, out: Span)
    requires out == Stamp(span, n)
    ensures StampOf(out) == n && EventsNumbered(out)
    ensures out == span.(attributes := out.attributes, events := out.events)
    ensures out.attributes - {"sequence"} == span.attributes - {"sequence"}
    ensures |out.events| == |span.events| && forall i :: 0 <= i < |span.events| ==>
              && out.events[i] == span.events[i].(attributes := out.events[i].attributes)
              && out.events[i].attributes - {"span_event_sequence"}
                 == span.events[i].attributes - {"span_event_sequence"}
  {
  }

  // ----- Steps within a critical section.

  function Append(h: History, e: ObsError): History {
    if |h.errors| >= HISTORY_SIZE then History(h.errors[1..] + [e], Some(e), h.droppedErrors + 1, h.log + [e])
    else History(h.errors + [e], Some(e), h.droppedErrors, h.log + [e])
  }

  function Remember(s: Store, e: ObsError): Store { s.(history := Append(s.history, e)) }

  function DropSpan(s: Store, span: Span, reason: Reason, e: ObsError): Store {
    s.(dropped := s.dropped + [Dropped(span, reason, e)], history := Append(s.history, e), dirty := true)
  }

  predicate Full(cfg: Config, s: Store) { cfg.capacity > 0 && |s.recorded| >= cfg.capacity }

  function KeepSpan(s: Store, span: Span, origin: Origin): Store {
    s.(recorded := s.recorded + [span], origins := s.origins + [origin])
  }

  /** The store after a span has taken the next number. */
  function Number(s: Store, span: Span): Store {
    s.(sequence := s.sequence + 1, stamped := s.stamped + [Stamp(span, s.sequence + 1)])
  }

  /** Numbers a span, then records it, or drops it when the store is full. */
  function Accept(cfg: Config, s: Store, span: Span, op: Operation): Store {
    var next := Number(s, span);
    var stamped := Stamp(span, next.sequence);
    if Full(cfg, next) then DropSpan(next, stamped, OverCapacity, CapacityError(op))
    else KeepSpan(next, stamped, Direct)
  }

  function Enqueue(s: Store, span: Span): Store {
    var next := Number(s, span);
    next.(pending := next.pending + [Stamp(span, next.sequence)])
  }

  function DropNumbered(s: Store, span: Span, e: ObsError): Store {
    var next := Number(s, span);
    DropSpan(next, Stamp(span, next.sequence), Injected, e)
  }

  /** Delivers a span that was pending, or drops it when the store is full. */
  function Deliver(cfg: Config, s: Store, span: Span): Store {
    if Full(cfg, s) then DropSpan(s, span, OverCapacity, CapacityError(Flushing)) else KeepSpan(s, span, Delivered)
  }

  /** What one loop of the source does with each span of a list. */
  datatype Each = Accepting | Closing | Queueing | Refusing(error: ObsError) | Delivering | Losing(error: ObsError)

  function Handle(cfg: Config, each: Each, s: Store, span: Span): Store {
    match each
    case Accepting => Accept(cfg, s, span, Exporting)
    case Closing => DropSpan(s, span, AfterShutdown, CLOSED)
    case Queueing => Enqueue(s, span)
    case Refusing(e) => DropNumbered(s, span, e)
    case Delivering => Deliver(cfg, s, span)
    case Losing(e) => DropSpan(s, span, Injected, e)
  }

  function HandleAll(cfg: Config, each: Each, s: Store, spans: seq<Span>): Store {
    if spans == [] then s
    else Handle(cfg, each, HandleAll(cfg, each, s, spans[..|spans| - 1]), spans[|spans| - 1])
  }

  // ----- Operations: what is called, what it has in hand between its sections, what it returns.

  /** A call with what the context says when it is asked. */
  datatype Call =
    | RecordCall(canceled: bool, span: Span)
    | ExportCall(canceled: bool, batch: seq<Span>)
    | FlushCall(canceled: bool)
    | ShutdownCall(canceled: bool)

  /** The local variables of an operation that has begun. */
  datatype Local = Local(call: Call, epoch: nat, index: nat, captured: Option<ObsError>)

  /** The errors a call returns joined; none stands for nil. */
  type Answer = seq<ObsError>

  function OperationOf(call: Call): Operation {
    match call
    case RecordCall(_, _) => Recording
    case ExportCall(_, _) => Exporting
    case FlushCall(_) => Flushing
    case ShutdownCall(_) => ShuttingDown
  }

  function Increment(c: Counters, op: Operation): Counters {
    var index := CountIn(c, op) + 1;
    var counted := c.(byOperation := c.byOperation[op := index], attempts := c.attempts + [Attempt(op, index)]);
    match op
    case Recording => counted.(record := c.record + 1)
    case Exporting => counted.(export_ := c.export_ + 1)
    case Flushing => counted.(flush := c.flush + 1)
    case ShuttingDown => counted.(shutdown := c.shutdown + 1)
    case Redacting => counted
  }

  function CountCall(s: Store, op: Operation): Store { s.(counters := Increment(s.counters, op)) }

  /** A repeated shutdown with no error retained ends in its first section. */
  predicate EndsAtOnce(s: Store, call: Call) { call.ShutdownCall? && s.shutdown && s.lastShutdownError.None? }

  /** The first critical section. */
  function Begin(epoch: nat, s: Store, call: Call): (Store, Local) {
    var counted := CountCall(s, OperationOf(call));
    (if call.ShutdownCall? then counted.(shutdown := true) else counted,
     Local(call, epoch, Count(counted, OperationOf(call)), if call.FlushCall? then s.lastShutdownError else None))
  }

  /** Records an error of an operation. */
  function Report(s: Store, call: Call, e: ObsError): (Store, Answer) {
    var flush := if call.FlushCall? then Some(e) else s.lastFlushError;
    var shutdown := if call.ShutdownCall? then Some(e) else s.lastShutdownError;
    (Remember(s.(lastFlushError := flush, lastShutdownError := shutdown, dirty := true), e), [e])
  }

  function CommitRecord(cfg: Config, s: Store, redacted: Span): (Store, Answer) {
    (Accept(cfg, s, redacted, Recording), if Full(cfg, s) then [CapacityError(Recording)] else [])
  }

  function CommitInjectedExport(cfg: Config, s: Store, f: Failure, redacted: seq<Span>): (Store, Answer) {
    var e := InjectedError(Exporting, f);
    var each := if e.retryable && !e.dropped then Queueing else Refusing(e);
    (Remember(HandleAll(cfg, each, s, redacted), e).(dirty := true), [e])
  }

  /** One error for each span that found the store full. */
  function Overflows(cfg: Config, s: Store, each: Each, spans: seq<Span>, e: ObsError): Answer {
    if spans == [] then []
    else
      var before := spans[..|spans| - 1];
      Overflows(cfg, s, each, before, e) + if Full(cfg, HandleAll(cfg, each, s, before)) then [e] else []
  }

  function CommitExport(cfg: Config, s: Store, redacted: seq<Span>): (Store, Answer) {
    if s.shutdown then (HandleAll(cfg, Closing, s, redacted), [CLOSED])
    else (HandleAll(cfg, Accepting, s, redacted), Overflows(cfg, s, Accepting, redacted, CapacityError(Exporting)))
  }

  /** The resend of a flush fails by injection: permanently or not. */
  function FailResend(cfg: Config, s: Store, f: Failure): (Store, Answer) {
    var e := InjectedError(Exporting, f);
    var lost := if !e.retryable || e.dropped then HandleAll(cfg, Losing(e), s, s.pending).(pending := []) else s;
    (Remember(lost, e).(lastFlushError := Some(e), dirty := true), [e])
  }

  function Resend(cfg: Config, s: Store): (Store, Answer) {
    var sent := HandleAll(cfg, Delivering, s, s.pending);
    var errors := Overflows(cfg, s, Delivering, s.pending, CapacityError(Flushing));
    (sent.(pending := [], dirty := errors != [],
           lastFlushError := if errors == [] then None else Some(errors[0])), errors)
  }

  function CommitFlush(cfg: Config, s: Store): (Store, Answer) {
    if s.pending == [] then (s.(dirty := false, lastFlushError := None), [])
    else
      var counted := CountCall(s, Exporting);
      match Matching(cfg.onExport, Count(counted, Exporting))
      case Some(f) => FailResend(cfg, counted, f)
      case None => Resend(cfg, counted)
  }

  function CommitShutdown(s: Store): (Store, Answer) {
    (s.(shutdown := true, pending := [], dirty := false, lastShutdownError := None,
        discarded := s.discarded + s.pending), [])
  }

  ghost function RedactAll(cfg: Config, batch: seq<Span>): (out: seq<Span>)
    ensures |out| == |batch|
  {
    seq(|batch|, i requires 0 <= i < |batch| => RedactedSpan(RuleFor, batch[i], cfg.redaction))
  }

  function Canceled(op: Operation): ObsError { ObsError(op, "canceled", true, false) }

  const REDACTION_FAILED := ObsError(Redacting, "redaction", false, true)

  /** The last critical section, with the tests that lead to it, in the operation's own epoch. */
  ghost function CommitNow(cfg: Config, s: Store, l: Local): (Store, Answer) {
    if l.call.canceled then Report(s, l.call, Canceled(OperationOf(l.call)))
    else
      match l.call
      case RecordCall(_, span) =>
        if !ValidOptions(cfg.redaction) then Report(s, l.call, REDACTION_FAILED)
        else CommitRecord(cfg, s, RedactedSpan(RuleFor, span, cfg.redaction))
      case ExportCall(_, batch) =>
        if batch != [] && !ValidOptions(cfg.redaction) then Report(s, l.call, REDACTION_FAILED)
        else (match Matching(cfg.onExport, l.index)
              case Some(f) => CommitInjectedExport(cfg, s, f, RedactAll(cfg, batch))
              case None => CommitExport(cfg, s, RedactAll(cfg, batch)))
      case FlushCall(_) =>
        (match Matching(cfg.onFlush, l.index)
         case Some(f) => Report(s, l.call, InjectedError(Flushing, f))
         case None => CommitFlush(cfg, s))
      case ShutdownCall(_) =>
        (match Matching(cfg.onShutdown, l.index)
         case Some(f) => Report(s, l.call, InjectedError(ShuttingDown, f))
         case None => CommitShutdown(s))
  }

  /** A flush that saw a shutdown error when it began returns it without looking further. */
  predicate StopsAtShutdownError(cfg: Config, l: Local) {
    l.call.FlushCall? && !l.call.canceled && l.captured.Some? && Matching(cfg.onFlush, l.index).None?
  }

  /** Every commit first compares the epoch; from an earlier epoch it publishes nothing. */
  ghost function Commit(cfg: Config, epoch: nat, s: Store, l: Local): (Store, Answer) {
    if StopsAtShutdownError(cfg, l) then (s, [l.captured.value])
    else if l.epoch != epoch then (s, [])
    else CommitNow(cfg, s, l)
  }
}

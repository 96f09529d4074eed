/** The recorder as an object: each critical section performed on fields, in place, and proved
    to do to the abstract store what the section of Recorder does. */
module RecorderState {
  import opened Model
  import opened Redaction
  import opened Recorder
  import opened RecorderRuns

  /** The first matching rule, else the single failure. */
  method FindFailure(plan: Plan, call: int) returns (found: Option<Failure>)
    ensures found == Matching(plan, call)
  {
    for i := 0 to |plan.rules|
      invariant Matching(plan, call) == Matching(Plan(plan.single, plan.rules[i..]), call)
    {
      if Matches(plan.rules[i], call) { return Some(plan.rules[i]); }
    }
    if plan.single.Some? && Matches(plan.single.value, call) { return plan.single; }
    return None;
  }

  lemma HandleStep(cfg: Config, each: Each, s: Store, spans: seq<Span>, n: nat)
    requires n < |spans|
    ensures HandleAll(cfg, each, s, spans[..n + 1]) == Handle(cfg, each, HandleAll(cfg, each, s, spans[..n]), spans[n])
  {
    assert spans[..n + 1][..n] == spans[..n];
  }

  lemma RedactStep(cfg: Config, batch: seq<Span>, n: nat)
    requires n < |batch|
    ensures RedactAll(cfg, batch[..n + 1])
         == RedactAll(cfg, batch[..n]) + [RedactedSpan(RuleFor, batch[n], cfg.redaction)]
  {
  }

  lemma OverflowStep(cfg: Config, each: Each, s: Store, spans: seq<Span>, e: ObsError, n: nat)
    requires n < |spans|
    ensures Overflows(cfg, s, each, spans[..n + 1], e)
         == Overflows(cfg, s, each, spans[..n], e) + if Full(cfg, HandleAll(cfg, each, s, spans[..n])) then [e] else []
  {
    assert spans[..n + 1][..n] == spans[..n];
  }

  lemma AllForgotten(s: Store, h: History, c: Counters)
    requires s == Store([], [], [], h, false, c, None, None, 0, false, [], [], [])
    requires h == EMPTY.history && c == EMPTY.counters
    ensures s == EMPTY
  {
  }

  class State {
    const cfg: Config
    var epoch: nat
    var recorded: seq<Span>
    var pending: seq<Span>
    var dropped: seq<Dropped>
    const errors: array<ObsError>
    var errorCount: nat
    var lastError: Option<ObsError>
    var droppedErrHist: nat
    var dirty: bool
    var recordCount: nat
    var exportCount: nat
    var flushCount: nat
    var shutdownCount: nat
    var operationCounts: map<Operation, nat>
    var lastFlushError: Option<ObsError>
    var lastShutdownErr: Option<ObsError>
    var sequence: nat
    var shutdown: bool
    ghost var log: seq<ObsError>
    ghost var discarded: seq<Span>
    ghost var origins: seq<Origin>
    ghost var stamped: seq<Span>
    ghost var attempts: seq<Attempt>

    ghost predicate Valid()
      reads this`errorCount
    {
      errors.Length == HISTORY_SIZE && errorCount <= HISTORY_SIZE
    }

    ghost function Contents(): Store
      requires Valid()
      reads this, errors
    {
      Store(recorded, pending, dropped, PastErrors(), dirty, Counts(),
            lastFlushError, lastShutdownErr, sequence, shutdown, discarded, origins, stamped)
    }

    ghost function Counts(): Counters
      reads this`recordCount, this`exportCount, this`flushCount, this`shutdownCount, this`operationCounts, this`attempts
    {
      Counters(recordCount, exportCount, flushCount, shutdownCount, operationCounts, attempts)
    }

    ghost function PastErrors(): History
      requires Valid()
      reads this`errorCount, this`lastError, this`droppedErrHist, this`log, errors
    {
      History(errors[..errorCount], lastError, droppedErrHist, log)
    }

    constructor (config: Config)
      ensures Valid() && fresh(errors) && cfg == config && epoch == 0 && Contents() == EMPTY
    {
      cfg := config;
      epoch := 0;
      recorded, pending, dropped := [], [], [];
      errors := new ObsError[HISTORY_SIZE](_ => CLOSED);
      errorCount, lastError, droppedErrHist := 0, None, 0;
      dirty, recordCount, exportCount, flushCount, shutdownCount, operationCounts := false, 0, 0, 0, 0, map[];
      lastFlushError, lastShutdownErr := None, None;
      sequence, shutdown := 0, false;
      log, discarded, origins, stamped, attempts := [], [], [], [], [];
    }

    // ----- Steps, under the lock.

    /** Moves a full error history down by one, in place, and puts an error last. */
    method ShiftErrors(e: ObsError)
      requires errors.Length == HISTORY_SIZE
      modifies errors
      ensures errors[..] == old(errors[..])[1..] + [e]
    {
      ghost var before := errors[..];
      for i := 0 to HISTORY_SIZE - 1
        invariant forall k :: 0 <= k < i ==> errors[k] == before[k + 1]
        invariant forall k :: i <= k < HISTORY_SIZE ==> errors[k] == before[k]
      {
        errors[i] := errors[i + 1];
      }
      errors[HISTORY_SIZE - 1] := e;
    }

    method PushError(e: ObsError)
      requires Valid()
      modifies this`errorCount, this`droppedErrHist, errors
      ensures Valid() && errors[..errorCount] == Append(old(PastErrors()), e).errors
      ensures droppedErrHist == Append(old(PastErrors()), e).droppedErrors
    {
      if errorCount >= HISTORY_SIZE {
        assert errors[..errorCount] == errors[..];
        ShiftErrors(e);
        assert errors[..errorCount] == errors[..];
        droppedErrHist := droppedErrHist + 1;
        return;
      }
      errors[errorCount] := e;
      errorCount := errorCount + 1;
      assert errors[..errorCount] == old(errors[..errorCount]) + [e];
    }

    method RememberError(e: ObsError)
      requires Valid()
      modifies this`lastError, this`errorCount, this`droppedErrHist, this`log, errors
      ensures Valid() && Contents() == Remember(old(Contents()), e)
    {
      PushError(e);
      lastError, log := Some(e), log + [e];
    }

    method RememberDirty(e: ObsError)
      requires Valid()
      modifies this, errors
      ensures Valid() && epoch == old(epoch) && Contents() == Remember(old(Contents()), e).(dirty := true)
    {
      RememberError(e);
      dirty := true;
    }

    method Drop(span: Span, reason: Reason, e: ObsError)
      requires Valid()
      modifies this, errors
      ensures Valid() && epoch == old(epoch) && Contents() == DropSpan(old(Contents()), span, reason, e)
    {
      dropped := dropped + [Dropped(span, reason, e)];
      RememberDirty(e);
    }

    predicate ShouldDrop()
      requires Valid()
      reads this, errors
      ensures ShouldDrop() == Full(cfg, Contents())
    {
      cfg.capacity > 0 && |recorded| >= cfg.capacity
    }

    method NextNumber(span: Span) returns (numbered: Span)
      requires Valid()
      modifies this`sequence, this`stamped
      ensures Valid() && Contents() == Number(old(Contents()), span) && numbered == Stamp(span, sequence)
    {
      sequence := sequence + 1;
      numbered := Stamp(span, sequence);
      stamped := stamped + [numbered];
    }

    /** Numbers a span, then records or drops it; says which. */
    method AcceptOne(span: Span, op: Operation) returns (lost: bool)
      requires Valid()
      modifies this, errors
      ensures Valid() && epoch == old(epoch) && lost == old(ShouldDrop())
      ensures Contents() == Accept(cfg, old(Contents()), span, op)
    {
      var numbered := NextNumber(span);
      lost := ShouldDrop();
      if lost {
        Drop(numbered, OverCapacity, CapacityError(op));
      } else {
        recorded, origins := recorded + [numbered], origins + [Direct];
      }
    }

    /** The attempts of an operation so far, this one included. */
    method IncrementCount(op: Operation) returns (call: nat)
      modifies this`operationCounts, this`attempts
      ensures call == CountIn(old(Counts()), op) + 1
      ensures operationCounts == old(operationCounts)[op := call] && attempts == old(attempts) + [Attempt(op, call)]
    {
      call := 1;
      if op in operationCounts { call := operationCounts[op] + 1; }
      operationCounts := operationCounts[op := call];
      attempts := attempts + [Attempt(op, call)];
    }

    method CountByName(op: Operation)
      modifies this`recordCount, this`exportCount, this`flushCount, this`shutdownCount
      ensures recordCount == old(recordCount) + if op.Recording? then 1 else 0
      ensures exportCount == old(exportCount) + if op.Exporting? then 1 else 0
      ensures flushCount == old(flushCount) + if op.Flushing? then 1 else 0
      ensures shutdownCount == old(shutdownCount) + if op.ShuttingDown? then 1 else 0
    {
      match op {
        case Recording => recordCount := recordCount + 1;
        case Exporting => exportCount := exportCount + 1;
        case Flushing => flushCount := flushCount + 1;
        case ShuttingDown => shutdownCount := shutdownCount + 1;
        case Redacting =>
      }
    }

    /** Counts a call twice, as the source does: by name and by operation. */
    method CountAttempt(op: Operation) returns (call: nat)
      modifies this`recordCount, this`exportCount, this`flushCount, this`shutdownCount
      modifies this`operationCounts, this`attempts
      ensures Counts() == Increment(old(Counts()), op) && call == CountIn(Counts(), op)
    {
      CountByName(op);
      call := IncrementCount(op);
    }

    method CountOne(op: Operation) returns (call: nat)
      requires Valid()
      modifies this`recordCount, this`exportCount, this`flushCount, this`shutdownCount
      modifies this`operationCounts, this`attempts
      ensures Valid() && Contents() == CountCall(old(Contents()), op) && call == Count(Contents(), op)
    {
      call := CountAttempt(op);
    }

    // ----- First critical sections.

    method BeginOperation(call: Call) returns (l: Local)
      requires Valid() && (call.RecordCall? || call.ExportCall?)
      modifies this
      ensures epoch == old(epoch)
      ensures Valid() && (Contents(), l) == Begin(epoch, old(Contents()), call)
    {
      var index := CountOne(OperationOf(call));
      l := Local(call, epoch, index, None);
    }

    method BeginFlush(call: Call) returns (l: Local)
      requires Valid() && call.FlushCall?
      modifies this
      ensures epoch == old(epoch)
      ensures Valid() && (Contents(), l) == Begin(epoch, old(Contents()), call)
    {
      var index := CountOne(Flushing);
      l := Local(call, epoch, index, lastShutdownErr);
    }

    method BeginShutdown(call: Call) returns (l: Local, ends: bool)
      requires Valid() && call.ShutdownCall?
      modifies this
      ensures epoch == old(epoch)
      ensures Valid() && (Contents(), l) == Begin(epoch, old(Contents()), call)
      ensures ends == EndsAtOnce(old(Contents()), call)
    {
      var index := CountOne(ShuttingDown);
      ends := shutdown && lastShutdownErr.None?;
      shutdown := true;
      l := Local(call, epoch, index, None);
    }

    // ----- Last critical sections.

    /** Publishes an error of an operation, unless the epoch has changed. */
    method ReportAtEpoch(l: Local, e: ObsError) returns (answer: Answer)
      requires Valid()
      modifies this, errors
      ensures Valid() && epoch == old(epoch)
      ensures (Contents(), answer)
           == if l.epoch != epoch then (old(Contents()), []) else Report(old(Contents()), l.call, e)
    {
      if l.epoch != epoch { return []; }
      if l.call.FlushCall? { lastFlushError := Some(e); }
      if l.call.ShutdownCall? { lastShutdownErr := Some(e); }
      RememberDirty(e);
      return [e];
    }

    method FinishRecord(l: Local) returns (answer: Answer)
      requires Valid() && l.call.RecordCall?
      modifies this, errors
      ensures Valid() && epoch == old(epoch) && (Contents(), answer) == Commit(cfg, epoch, old(Contents()), l)
    {
      if l.call.canceled {
        answer := ReportAtEpoch(l, Canceled(Recording));
        return;
      }
      var failed, redacted := ApplySpan(l.call.span, cfg.redaction);
      if failed {
        answer := ReportAtEpoch(l, REDACTION_FAILED);
        return;
      }
      if l.epoch != epoch { return []; }
      var lost := AcceptOne(redacted, Recording);
      answer := if lost then [CapacityError(Recording)] else [];
    }

    method RedactBatch(batch: seq<Span>) returns (failed: bool, redacted: seq<Span>)
      ensures failed <==> batch != [] && !ValidOptions(cfg.redaction)
      ensures !failed ==> redacted == RedactAll(cfg, batch)
    {
      failed, redacted := false, [];
      for i := 0 to |batch|
        invariant i > 0 ==> ValidOptions(cfg.redaction)
        invariant redacted == RedactAll(cfg, batch[..i])
      {
        RedactStep(cfg, batch, i);
        var item;
        failed, item := ApplySpan(batch[i], cfg.redaction);
        if failed { return; }
        redacted := redacted + [item];
      }
      assert batch[..|batch|] == batch;
    }

    method QueueAll(spans: seq<Span>)
      requires Valid()
      modifies this, errors
      ensures Valid() && epoch == old(epoch) && Contents() == HandleAll(cfg, Queueing, old(Contents()), spans)
    {
      ghost var before := Contents();
      for i := 0 to |spans|
        invariant Valid() && epoch == old(epoch) && Contents() == HandleAll(cfg, Queueing, before, spans[..i])
      {
        HandleStep(cfg, Queueing, before, spans, i);
        var numbered := NextNumber(spans[i]);
        pending := pending + [numbered];
      }
      assert spans[..|spans|] == spans;
    }

    method RefuseAll(spans: seq<Span>, e: ObsError)
      requires Valid()
      modifies this, errors
      ensures Valid() && epoch == old(epoch) && Contents() == HandleAll(cfg, Refusing(e), old(Contents()), spans)
    {
      ghost var before := Contents();
      for i := 0 to |spans|
        invariant Valid() && epoch == old(epoch) && Contents() == HandleAll(cfg, Refusing(e), before, spans[..i])
      {
        HandleStep(cfg, Refusing(e), before, spans, i);
        var numbered := NextNumber(spans[i]);
        Drop(numbered, Injected, e);
      }
      assert spans[..|spans|] == spans;
    }

    method InjectedExport(f: Failure, spans: seq<Span>) returns (answer: Answer)
      requires Valid()
      modifies this, errors
      ensures Valid() && epoch == old(epoch) &&
              (Contents(), answer) == CommitInjectedExport(cfg, old(Contents()), f, spans)
    {
      var e := InjectedError(Exporting, f);
      if e.retryable && !e.dropped { QueueAll(spans); } else { RefuseAll(spans, e); }
      RememberDirty(e);
      return [e];
    }

    /** Drops a batch that came after shutdown, none of it numbered. */
    method Close(spans: seq<Span>)
      requires Valid()
      modifies this, errors
      ensures Valid() && epoch == old(epoch) && Contents() == HandleAll(cfg, Closing, old(Contents()), spans)
    {
      ghost var before := Contents();
      for i := 0 to |spans|
        invariant Valid() && epoch == old(epoch) && Contents() == HandleAll(cfg, Closing, before, spans[..i])
      {
        HandleStep(cfg, Closing, before, spans, i);
        Drop(spans[i], AfterShutdown, CLOSED);
      }
      assert spans[..|spans|] == spans;
    }

    method AcceptAll(spans: seq<Span>) returns (lost: Answer)
      requires Valid()
      modifies this, errors
      ensures Valid() && epoch == old(epoch) && Contents() == HandleAll(cfg, Accepting, old(Contents()), spans)
      ensures lost == Overflows(cfg, old(Contents()), Accepting, spans, CapacityError(Exporting))
    {
      lost := [];
      ghost var before := Contents();
      for i := 0 to |spans|
        invariant Valid() && epoch == old(epoch) && Contents() == HandleAll(cfg, Accepting, before, spans[..i])
        invariant lost == Overflows(cfg, before, Accepting, spans[..i], CapacityError(Exporting))
      {
        HandleStep(cfg, Accepting, before, spans, i);
        OverflowStep(cfg, Accepting, before, spans, CapacityError(Exporting), i);
        var full := AcceptOne(spans[i], Exporting);
        if full { lost := lost + [CapacityError(Exporting)]; }
      }
      assert spans[..|spans|] == spans;
    }

    method FinishExport(l: Local) returns (answer: Answer)
      requires Valid() && l.call.ExportCall?
      modifies this, errors
      ensures Valid() && epoch == old(epoch) && (Contents(), answer) == Commit(cfg, epoch, old(Contents()), l)
    {
      if l.call.canceled {
        answer := ReportAtEpoch(l, Canceled(Exporting));
        return;
      }
      var failed, redacted := RedactBatch(l.call.batch);
      if failed {
        answer := ReportAtEpoch(l, REDACTION_FAILED);
        return;
      }
      var failure := FindFailure(cfg.onExport, l.index);
      if l.epoch != epoch { return []; }
      if failure.Some? {
        answer := InjectedExport(failure.value, redacted);
      } else if shutdown {
        Close(redacted);
        answer := [CLOSED];
      } else {
        answer := AcceptAll(redacted);
      }
    }

    method DropPending(e: ObsError)
      requires Valid()
      modifies this, errors
      ensures Valid() && epoch == old(epoch)
      ensures Contents() == HandleAll(cfg, Losing(e), old(Contents()), old(pending)).(pending := [])
    {
      ghost var before := Contents();
      for i := 0 to |pending|
        invariant Valid() && epoch == old(epoch) && pending == before.pending
        invariant Contents() == HandleAll(cfg, Losing(e), before, pending[..i])
      {
        HandleStep(cfg, Losing(e), before, before.pending, i);
        Drop(pending[i], Injected, e);
      }
      assert pending[..|pending|] == pending;
      pending := [];
    }

    method DeliverOne(span: Span) returns (lost: bool)
      requires Valid()
      modifies this, errors
      ensures Valid() && epoch == old(epoch) && lost == old(ShouldDrop())
      ensures Contents() == Deliver(cfg, old(Contents()), span)
    {
      lost := ShouldDrop();
      if lost {
        Drop(span, OverCapacity, CapacityError(Flushing));
      } else {
        recorded, origins := recorded + [span], origins + [Delivered];
      }
    }

    /** Delivers every span of the queue, which is still to be emptied. */
    method DeliverEach() returns (lost: Answer)
      requires Valid()
      modifies this, errors
      ensures Valid() && epoch == old(epoch)
      ensures Contents() == HandleAll(cfg, Delivering, old(Contents()), old(pending))
      ensures lost == Overflows(cfg, old(Contents()), Delivering, old(pending), CapacityError(Flushing))
    {
      lost := [];
      ghost var before := Contents();
      for i := 0 to |pending|
        invariant Valid() && epoch == old(epoch) && pending == before.pending
        invariant Contents() == HandleAll(cfg, Delivering, before, pending[..i])
        invariant lost == Overflows(cfg, before, Delivering, pending[..i], CapacityError(Flushing))
      {
        HandleStep(cfg, Delivering, before, before.pending, i);
        OverflowStep(cfg, Delivering, before, before.pending, CapacityError(Flushing), i);
        var full := DeliverOne(pending[i]);
        if full { lost := lost + [CapacityError(Flushing)]; }
      }
      assert pending[..|pending|] == pending;
    }

    method DeliverPending() returns (lost: Answer)
      requires Valid()
      modifies this, errors
      ensures Valid() && epoch == old(epoch)
      ensures Contents() == HandleAll(cfg, Delivering, old(Contents()), old(pending)).(pending := [])
      ensures lost == Overflows(cfg, old(Contents()), Delivering, old(pending), CapacityError(Flushing))
    {
      lost := DeliverEach();
      pending := [];
    }

    /** The resend fails by injection: the queue is lost, or stays. */
    method FailFlush(f: Failure) returns (answer: Answer)
      requires Valid()
      modifies this, errors
      ensures Valid() && epoch == old(epoch) && (Contents(), answer) == FailResend(cfg, old(Contents()), f)
    {
      var e := InjectedError(Exporting, f);
      if !e.retryable || e.dropped { DropPending(e); }
      lastFlushError := Some(e);
      RememberDirty(e);
      return [e];
    }

    method SendPending() returns (answer: Answer)
      requires Valid()
      modifies this, errors
      ensures Valid() && epoch == old(epoch) && (Contents(), answer) == Resend(cfg, old(Contents()))
    {
      answer := DeliverPending();
      if |answer| > 0 {
        lastFlushError, dirty := Some(answer[0]), true;
      } else {
        dirty, lastFlushError := false, None;
      }
    }

    method FlushNow() returns (answer: Answer)
      requires Valid()
      modifies this, errors
      ensures Valid() && epoch == old(epoch) && (Contents(), answer) == CommitFlush(cfg, old(Contents()))
    {
      if |pending| == 0 {
        dirty, lastFlushError := false, None;
        return [];
      }
      var call := CountOne(Exporting);
      var failure := FindFailure(cfg.onExport, call);
      match failure {
        case Some(f) => answer := FailFlush(f);
        case None => answer := SendPending();
      }
    }

    method FinishFlush(l: Local) returns (answer: Answer)
      requires Valid() && l.call.FlushCall?
      modifies this, errors
      ensures Valid() && epoch == old(epoch) && (Contents(), answer) == Commit(cfg, epoch, old(Contents()), l)
    {
      if l.call.canceled {
        answer := ReportAtEpoch(l, Canceled(Flushing));
        return;
      }
      var failure := FindFailure(cfg.onFlush, l.index);
      if failure.Some? {
        answer := ReportAtEpoch(l, InjectedError(Flushing, failure.value));
        return;
      }
      if l.captured.Some? { return [l.captured.value]; }
      if l.epoch != epoch { return []; }
      answer := FlushNow();
    }

    method DiscardPending()
      requires Valid()
      modifies this`pending, this`discarded
      ensures Valid() && pending == [] && discarded == old(discarded) + old(pending)
    {
      discarded, pending := discarded + pending, [];
    }

    method ShutDownNow()
      requires Valid()
      modifies this
      ensures Valid() && epoch == old(epoch) && Contents() == CommitShutdown(old(Contents())).0
    {
      DiscardPending();
      shutdown, dirty, lastShutdownErr := true, false, None;
    }

    method FinishShutdown(l: Local) returns (answer: Answer)
      requires Valid() && l.call.ShutdownCall?
      modifies this, errors
      ensures Valid() && epoch == old(epoch) && (Contents(), answer) == Commit(cfg, epoch, old(Contents()), l)
    {
      if l.call.canceled {
        answer := ReportAtEpoch(l, Canceled(ShuttingDown));
        return;
      }
      var failure := FindFailure(cfg.onShutdown, l.index);
      if failure.Some? {
        answer := ReportAtEpoch(l, InjectedError(ShuttingDown, failure.value));
        return;
      }
      if l.epoch != epoch { return []; }
      ShutDownNow();
      return [];
    }

    method ForgetErrors()
      requires Valid()
      modifies this`errorCount, this`lastError, this`droppedErrHist, this`log
      ensures Valid() && PastErrors() == EMPTY.history
    {
      errorCount, lastError, droppedErrHist, log := 0, None, 0, [];
      assert errors[..0] == [];
    }

    method ForgetSpans()
      requires Valid()
      modifies this`recorded, this`pending, this`dropped, this`sequence, this`discarded, this`origins, this`stamped
      ensures Valid() && recorded == [] && pending == [] && dropped == [] && sequence == 0
      ensures discarded == [] && origins == [] && stamped == []
    {
      recorded, pending, dropped, sequence, discarded, origins, stamped := [], [], [], 0, [], [], [];
    }

    method ForgetCounts()
      requires Valid()
      modifies this`recordCount, this`exportCount, this`flushCount, this`shutdownCount
      modifies this`operationCounts, this`attempts
      ensures Valid() && Counts() == EMPTY.counters
    {
      recordCount, exportCount, flushCount, shutdownCount, operationCounts, attempts := 0, 0, 0, 0, map[], [];
    }

    method ForgetFlags()
      requires Valid()
      modifies this`dirty, this`shutdown, this`lastFlushError, this`lastShutdownErr
      ensures !dirty && !shutdown && lastFlushError == None && lastShutdownErr == None
    {
      dirty, shutdown, lastFlushError, lastShutdownErr := false, false, None, None;
    }

    method ForgetBooks()
      requires Valid()
      modifies this`recordCount, this`exportCount, this`flushCount, this`shutdownCount
      modifies this`operationCounts, this`attempts
      modifies this`errorCount, this`lastError, this`droppedErrHist, this`log
      ensures Valid() && Counts() == EMPTY.counters && PastErrors() == EMPTY.history
    {
      ForgetCounts();
      ForgetErrors();
    }

    method Reset()
      requires Valid()
      modifies this
      ensures Valid() && epoch == old(epoch) + 1 && Contents() == EMPTY
    {
      ForgetSpans();
      ForgetFlags();
      ForgetBooks();
      epoch := epoch + 1;
      AllForgotten(Contents(), PastErrors(), Counts());
    }

    // ----- Interleaving.

    method Start(call: Call) returns (l: Local, ends: bool)
      requires Valid()
      modifies this
      ensures Valid() && epoch == old(epoch) && (Contents(), l) == Begin(epoch, old(Contents()), call)
      ensures ends == EndsAtOnce(old(Contents()), call)
    {
      ends := false;
      match call {
        case FlushCall(_) => l := BeginFlush(call);
        case ShutdownCall(_) => l, ends := BeginShutdown(call);
        case _ => l := BeginOperation(call);
      }
    }

    method Finish(l: Local) returns (answer: Answer)
      requires Valid()
      modifies this, errors
      ensures Valid() && epoch == old(epoch) && (Contents(), answer) == Commit(cfg, epoch, old(Contents()), l)
    {
      match l.call {
        case RecordCall(_, _) => answer := FinishRecord(l);
        case ExportCall(_, _) => answer := FinishExport(l);
        case FlushCall(_) => answer := FinishFlush(l);
        case ShutdownCall(_) => answer := FinishShutdown(l);
      }
    }

    /** One step of an interleaving on the object is one step of the state machine, so every
        theorem about runs is about this object. */
    method Take(running: map<nat, Local>, step: Step) returns (left: map<nat, Local>, answer: Answer)
      requires Valid()
      modifies this, errors
      ensures Valid() && var sys := old(System(epoch, Contents(), running));
              System(epoch, Contents(), left) == Next(cfg, sys, step) && answer == AnswerOf(cfg, sys, step)
    {
      left, answer := running, [];
      match step {
        case Start(id, call) =>
          if id !in running {
            var l, ends := Start(call);
            if !ends { left := running[id := l]; }
          }
        case Finish(id) =>
          if id in running {
            answer := Finish(running[id]);
            left := running - {id};
          }
        case Reset => Reset();
      }
    }
  }
}

/** What each loop of the recorder does to the spans it is given, without recursion. */
module RecorderLoops {
  import opened Model
  import opened Recorder
  import opened RecorderAnswers

  /** How many of n more spans the store has room for. */
  function Fit(cfg: Config, s: Store, n: nat): (r: nat)
    ensures r <= n
  {
    if cfg.capacity <= 0 || |s.recorded| + n <= cfg.capacity then n
    else if |s.recorded| >= cfg.capacity then 0
    else cfg.capacity - |s.recorded|
  }

  function DroppedAs(spans: seq<Span>, reason: Reason, e: ObsError): (out: seq<Dropped>)
    ensures |out| == |spans|
  {
    seq(|spans|, i requires 0 <= i < |spans| => Dropped(spans[i], reason, e))
  }

  function Times(e: ObsError, n: nat): (out: seq<ObsError>)
    ensures |out| == n
  {
    seq(n, _ => e)
  }

  lemma TimesSnoc(e: ObsError, n: nat)
    ensures Times(e, n + 1) == Times(e, n) + [e]
  {
  }

  lemma DroppedSnoc(spans: seq<Span>, span: Span, reason: Reason, e: ObsError)
    ensures DroppedAs(spans + [span], reason, e) == DroppedAs(spans, reason, e) + [Dropped(span, reason, e)]
  {
  }

  // ----- Loops that drop.

  /** All the spans were dropped for one reason, and one error was remembered for each. */
  ghost predicate AllDropped(s: Store, spans: seq<Span>, reason: Reason, e: ObsError, after: Store) {
    && after == s.(dropped := s.dropped + DroppedAs(spans, reason, e), history := after.history,
                   dirty := s.dirty || spans != [])
    && after.history.log == s.history.log + Times(e, |spans|)
  }

  lemma AllDroppedSnoc(s: Store, spans: seq<Span>, span: Span, reason: Reason, e: ObsError, mid: Store, after: Store)
    requires AllDropped(s, spans, reason, e, mid) && after == DropSpan(mid, span, reason, e)
    ensures AllDropped(s, spans + [span], reason, e, after)
  {
    DroppedSnoc(spans, span, reason, e);
    TimesSnoc(e, |spans|);
  }

  lemma NoneDropped(s: Store, reason: Reason, e: ObsError)
    ensures AllDropped(s, [], reason, e, s)
  {
    assert DroppedAs([], reason, e) == [] && Times(e, 0) == [];
  }

  function WhyDropped(each: Each): (Reason, ObsError)
    requires each.Closing? || each.Losing?
  {
    if each.Closing? then (AfterShutdown, CLOSED) else (Injected, each.error)
  }

  /** After a shutdown, and after a resend that failed for good, every span is dropped as it is. */
  lemma {:induction false} DropsAll(cfg: Config, each: Each, s: Store, spans: seq<Span>)
    requires each.Closing? || each.Losing?
    ensures AllDropped(s, spans, WhyDropped(each).0, WhyDropped(each).1, HandleAll(cfg, each, s, spans))
  {
    var (reason, e) := WhyDropped(each);
    if spans == [] {
      NoneDropped(s, reason, e);
    } else {
      var n := |spans| - 1;
      DropsAll(cfg, each, s, spans[..n]);
      var mid := HandleAll(cfg, each, s, spans[..n]);
      AllDroppedSnoc(s, spans[..n], spans[n], reason, e, mid, HandleAll(cfg, each, s, spans));
      assert spans[..n] + [spans[n]] == spans;
    }
  }

  // ----- Loops that number.

  /** The store after spans have taken the next numbers. */
  function Numbered(s: Store, spans: seq<Span>): Store {
    s.(sequence := s.sequence + |spans|, stamped := s.stamped + StampedFrom(spans, s.sequence))
  }

  lemma StampedSnoc(spans: seq<Span>, span: Span, n: nat)
    ensures StampedFrom(spans + [span], n) == StampedFrom(spans, n) + [Stamp(span, n + |spans| + 1)]
  {
  }

  lemma NumberedSnoc(s: Store, spans: seq<Span>, span: Span)
    ensures Numbered(s, spans + [span]) == Number(Numbered(s, spans), span)
  {
    StampedSnoc(spans, span, s.sequence);
  }

  lemma NumberedNone(s: Store)
    ensures Numbered(s, []) == s && StampedFrom([], s.sequence) == []
  {
  }

  /** A retryable injected failure puts every span in the queue, under the next numbers. */
  lemma {:induction false} QueuesAll(cfg: Config, s: Store, spans: seq<Span>)
    ensures HandleAll(cfg, Queueing, s, spans)
         == Numbered(s, spans).(pending := s.pending + StampedFrom(spans, s.sequence))
  {
    if spans == [] {
      NumberedNone(s);
    } else {
      var n := |spans| - 1;
      QueuesAll(cfg, s, spans[..n]);
      NumberedSnoc(s, spans[..n], spans[n]);
      StampedSnoc(spans[..n], spans[n], s.sequence);
      assert spans[..n] + [spans[n]] == spans;
    }
  }

  lemma RefusedNext(s: Store, spans: seq<Span>, span: Span, e: ObsError, mid: Store, after: Store)
    requires AllDropped(Numbered(s, spans), StampedFrom(spans, s.sequence), Injected, e, mid)
    requires after == DropNumbered(mid, span, e)
    ensures AllDropped(Numbered(s, spans + [span]), StampedFrom(spans + [span], s.sequence), Injected, e, after)
  {
    NumberedSnoc(s, spans, span);
    StampedSnoc(spans, span, s.sequence);
    var stamped := Stamp(span, s.sequence + |spans| + 1);
    AllDroppedSnoc(Number(Numbered(s, spans), span), StampedFrom(spans, s.sequence), stamped, Injected, e,
                   Number(mid, span), after);
  }

  /** Any other injected failure drops every span, under the next numbers. */
  lemma {:induction false} RefusesAll(cfg: Config, s: Store, spans: seq<Span>, e: ObsError)
    ensures AllDropped(Numbered(s, spans), StampedFrom(spans, s.sequence), Injected, e,
                       HandleAll(cfg, Refusing(e), s, spans))
  {
    if spans == [] {
      NumberedNone(s);
      NoneDropped(s, Injected, e);
    } else {
      var n := |spans| - 1;
      RefusesAll(cfg, s, spans[..n], e);
      var mid := HandleAll(cfg, Refusing(e), s, spans[..n]);
      RefusedNext(s, spans[..n], spans[n], e, mid, HandleAll(cfg, Refusing(e), s, spans));
      assert spans[..n] + [spans[n]] == spans;
    }
  }

  // ----- Loops that record.

  /** The first spans, as many as there is room for, were recorded, and the others dropped, with
      one error remembered for each. */
  ghost predicate Filled(cfg: Config, s: Store, spans: seq<Span>, origin: Origin, e: ObsError, after: Store) {
    var r := Fit(cfg, s, |spans|);
    && after == s.(recorded := s.recorded + spans[..r], origins := s.origins + Same(origin, r),
                   dropped := s.dropped + DroppedAs(spans[r..], OverCapacity, e), history := after.history,
                   dirty := s.dirty || r < |spans|)
    && after.history.log == s.history.log + Times(e, |spans| - r)
  }

  lemma NoneFilled(cfg: Config, s: Store, origin: Origin, e: ObsError)
    ensures Filled(cfg, s, [], origin, e, s)
  {
    assert DroppedAs([], OverCapacity, e) == [] && Times(e, 0) == [] && Same(origin, 0) == [];
  }

  lemma FitNext(cfg: Config, s: Store, n: nat)
    ensures var r := Fit(cfg, s, n);
            var full := cfg.capacity > 0 && |s.recorded| + r >= cfg.capacity;
            Fit(cfg, s, n + 1) == (if full then r else n + 1) && (!full ==> r == n)
  {
  }

  lemma FilledSnoc(cfg: Config, s: Store, spans: seq<Span>, span: Span, origin: Origin, e: ObsError,
                   mid: Store, after: Store)
    requires Filled(cfg, s, spans, origin, e, mid)
    requires after == if Full(cfg, mid) then DropSpan(mid, span, OverCapacity, e) else KeepSpan(mid, span, origin)
    ensures Filled(cfg, s, spans + [span], origin, e, after)
  {
    FitNext(cfg, s, |spans|);
    assert |mid.recorded| == |s.recorded| + Fit(cfg, s, |spans|);
    if Full(cfg, mid) {
      FilledWhenFull(cfg, s, spans, span, origin, e, mid);
    } else {
      FilledWithRoom(cfg, s, spans, span, origin, e, mid);
    }
  }

  lemma FilledWhenFull(cfg: Config, s: Store, spans: seq<Span>, span: Span, origin: Origin, e: ObsError, mid: Store)
    requires Filled(cfg, s, spans, origin, e, mid) && Fit(cfg, s, |spans| + 1) == Fit(cfg, s, |spans|)
    ensures Filled(cfg, s, spans + [span], origin, e, DropSpan(mid, span, OverCapacity, e))
  {
    var r := Fit(cfg, s, |spans|);
    assert (spans + [span])[..r] == spans[..r] && (spans + [span])[r..] == spans[r..] + [span];
    DroppedSnoc(spans[r..], span, OverCapacity, e);
    TimesSnoc(e, |spans| - r);
  }

  lemma FilledWithRoom(cfg: Config, s: Store, spans: seq<Span>, span: Span, origin: Origin, e: ObsError, mid: Store)
    requires Filled(cfg, s, spans, origin, e, mid)
    requires Fit(cfg, s, |spans|) == |spans| && Fit(cfg, s, |spans| + 1) == |spans| + 1
    ensures Filled(cfg, s, spans + [span], origin, e, KeepSpan(mid, span, origin))
  {
    var n := |spans|;
    assert spans[..n] == spans && spans[n..] == [];
    assert (spans + [span])[..n + 1] == spans + [span] && (spans + [span])[n + 1..] == [];
    assert Same(origin, n + 1) == Same(origin, n) + [origin];
    assert DroppedAs([], OverCapacity, e) == [] && Times(e, 0) == [];
  }

  /** Delivering a queue records as much of its front as there is room for and drops the rest. */
  lemma {:induction false} DeliversAll(cfg: Config, s: Store, spans: seq<Span>)
    ensures Filled(cfg, s, spans, Delivered, CapacityError(Flushing), HandleAll(cfg, Delivering, s, spans))
  {
    if spans == [] {
      NoneFilled(cfg, s, Delivered, CapacityError(Flushing));
    } else {
      var n := |spans| - 1;
      DeliversAll(cfg, s, spans[..n]);
      var mid := HandleAll(cfg, Delivering, s, spans[..n]);
      FilledSnoc(cfg, s, spans[..n], spans[n], Delivered, CapacityError(Flushing), mid,
                 HandleAll(cfg, Delivering, s, spans));
      assert spans[..n] + [spans[n]] == spans;
    }
  }

  lemma FilledWithNumber(cfg: Config, s: Store, spans: seq<Span>, origin: Origin, e: ObsError, mid: Store, span: Span)
    requires Filled(cfg, s, spans, origin, e, mid)
    ensures Filled(cfg, Number(s, span), spans, origin, e, Number(mid, span).(stamped := Number(s, span).stamped))
  {
  }

  lemma AcceptedNext(cfg: Config, s: Store, spans: seq<Span>, span: Span, e: ObsError, mid: Store, after: Store)
    requires Filled(cfg, Numbered(s, spans), StampedFrom(spans, s.sequence), Direct, e, mid)
    requires after == if Full(cfg, mid) then DropSpan(Number(mid, span), Stamp(span, mid.sequence + 1), OverCapacity, e)
                      else KeepSpan(Number(mid, span), Stamp(span, mid.sequence + 1), Direct)
    ensures Filled(cfg, Numbered(s, spans + [span]), StampedFrom(spans + [span], s.sequence), Direct, e, after)
  {
    NumberedSnoc(s, spans, span);
    StampedSnoc(spans, span, s.sequence);
    FilledWithNumber(cfg, Numbered(s, spans), StampedFrom(spans, s.sequence), Direct, e, mid, span);
    FilledSnoc(cfg, Number(Numbered(s, spans), span), StampedFrom(spans, s.sequence), Stamp(span, mid.sequence + 1),
               Direct, e, Number(mid, span), after);
  }

  /** Accepting a batch numbers all of it, records as much of its front as there is room for,
      and drops the rest. */
  lemma {:induction false} AcceptsAll(cfg: Config, s: Store, spans: seq<Span>)
    ensures Filled(cfg, Numbered(s, spans), StampedFrom(spans, s.sequence), Direct, CapacityError(Exporting),
                   HandleAll(cfg, Accepting, s, spans))
  {
    if spans == [] {
      NumberedNone(s);
      NoneFilled(cfg, s, Direct, CapacityError(Exporting));
    } else {
      var n := |spans| - 1;
      AcceptsAll(cfg, s, spans[..n]);
      var mid := HandleAll(cfg, Accepting, s, spans[..n]);
      AcceptedNext(cfg, s, spans[..n], spans[n], CapacityError(Exporting), mid, HandleAll(cfg, Accepting, s, spans));
      assert spans[..n] + [spans[n]] == spans;
    }
  }

  lemma OverflowNext(cfg: Config, s: Store, each: Each, spans: seq<Span>, e: ObsError)
    requires spans != []
    ensures var before := spans[..|spans| - 1];
            Overflows(cfg, s, each, spans, e)
            == Overflows(cfg, s, each, before, e) + if Full(cfg, HandleAll(cfg, each, s, before)) then [e] else []
  {
  }

  lemma RecordedCount(cfg: Config, each: Each, s: Store, spans: seq<Span>)
    requires each.Accepting? || each.Delivering?
    ensures |HandleAll(cfg, each, s, spans).recorded| == |s.recorded| + Fit(cfg, s, |spans|)
  {
    if each.Accepting? { AcceptsAll(cfg, s, spans); } else { DeliversAll(cfg, s, spans); }
  }

  /** One error for each span without room. */
  lemma {:induction false} OverflowsExactly(cfg: Config, s: Store, each: Each, spans: seq<Span>, e: ObsError)
    requires each.Accepting? || each.Delivering?
    ensures Overflows(cfg, s, each, spans, e) == Times(e, |spans| - Fit(cfg, s, |spans|))
  {
    if spans != [] {
      var n := |spans| - 1;
      OverflowsExactly(cfg, s, each, spans[..n], e);
      OverflowNext(cfg, s, each, spans, e);
      RecordedCount(cfg, each, s, spans[..n]);
      FitNext(cfg, s, n);
      TimesSnoc(e, n - Fit(cfg, s, n));
    }
  }

  // ----- Whole commits.

  /** An injected failure as an error: a failure without a classification has a default one. */
  function InjectedAs(op: Operation, f: Failure): ObsError {
    if f.classification == "" then ObsError(op, "injected_failure", f.retryable, f.dropped)
    else ObsError(op, f.classification, f.retryable, f.dropped)
  }

  /** The commit ends with one error, which is answered and remembered, becomes the flush or the
      shutdown error if the operation is one of these, and leaves the store dirty. */
  ghost predicate FailsWith(s: Store, call: Call, e: ObsError, after: Store, answer: Answer) {
    && answer == [e] && after.history.log == s.history.log + [e]
    && after == s.(history := after.history, dirty := true,
                   lastFlushError := if call.FlushCall? then Some(e) else s.lastFlushError,
                   lastShutdownError := if call.ShutdownCall? then Some(e) else s.lastShutdownError)
  }

  /** How an operation fails in its own epoch: when it is canceled, when the limit is negative and
      there is something to redact, and when a rule fails a flush or a shutdown. */
  lemma FailuresExactly(cfg: Config, s: Store, l: Local)
    ensures var (after, answer) := CommitNow(cfg, s, l);
            && (l.call.canceled ==>
                  FailsWith(s, l.call, ObsError(OperationOf(l.call), "canceled", true, false), after, answer))
            && (!l.call.canceled && cfg.redaction.maxSummaryBytes < 0
                && (l.call.RecordCall? || (l.call.ExportCall? && l.call.batch != [])) ==>
                  FailsWith(s, l.call, ObsError(Redacting, "redaction", false, true), after, answer))
            && (!l.call.canceled && l.call.FlushCall? && Matching(cfg.onFlush, l.index).Some? ==>
                  FailsWith(s, l.call, InjectedAs(Flushing, Matching(cfg.onFlush, l.index).value), after, answer))
            && (!l.call.canceled && l.call.ShutdownCall? && Matching(cfg.onShutdown, l.index).Some? ==>
                  FailsWith(s, l.call, InjectedAs(ShuttingDown, Matching(cfg.onShutdown, l.index).value), after,
                            answer))
  {
  }

  /** A flush that no rule fails: as much of the queue as there is room for is recorded, the rest is
      dropped and answered with one error each, and the queue is empty. */
  lemma DeliveryExactly(cfg: Config, s: Store)
    requires s.pending != [] && Matching(cfg.onExport, Count(s, Exporting) + 1).None?
    ensures var (after, answer) := CommitFlush(cfg, s);
            var counted, r := CountCall(s, Exporting), Fit(cfg, s, |s.pending|);
            && answer == Times(ObsError(Flushing, "capacity", false, true), |s.pending| - r)
            && Filled(cfg, counted, s.pending, Delivered, CapacityError(Flushing),
                      after.(pending := s.pending, dirty := s.dirty || answer != [],
                             lastFlushError := s.lastFlushError))
            && after.pending == [] && after.dirty == (answer != [])
            && after.lastFlushError == if answer == [] then None else Some(CapacityError(Flushing))
  {
    var counted := CountCall(s, Exporting);
    assert CommitFlush(cfg, s) == Resend(cfg, counted);
    ResendExactly(cfg, counted);
  }

  lemma ResendExactly(cfg: Config, s: Store)
    ensures var (after, answer) := Resend(cfg, s);
            var sent := HandleAll(cfg, Delivering, s, s.pending);
            && answer == Times(CapacityError(Flushing), |s.pending| - Fit(cfg, s, |s.pending|))
            && Filled(cfg, s, s.pending, Delivered, CapacityError(Flushing), sent)
            && after == sent.(pending := [], dirty := answer != [],
                              lastFlushError := if answer == [] then None else Some(CapacityError(Flushing)))
  {
    DeliversAll(cfg, s, s.pending);
    OverflowsExactly(cfg, s, Delivering, s.pending, CapacityError(Flushing));
  }

  /** An export that fails by injection: a retryable failure that drops nothing queues the whole
      batch, any other drops the whole batch, and either remembers the failure once more. */
  lemma InjectedExactly(cfg: Config, s: Store, f: Failure, spans: seq<Span>)
    ensures var (after, answer) := CommitInjectedExport(cfg, s, f, spans);
            var e := InjectedAs(Exporting, f);
            && answer == [e] && after.dirty
            && if f.retryable && !f.dropped then
                 && after.recorded == s.recorded && after.dropped == s.dropped
                 && after.pending == s.pending + StampedFrom(spans, s.sequence)
                 && after.history.log == s.history.log + [e]
               else
                 && after.recorded == s.recorded && after.pending == s.pending
                 && after.dropped == s.dropped + DroppedAs(StampedFrom(spans, s.sequence), Injected, e)
                 && after.history.log == s.history.log + Times(e, |spans| + 1)
  {
    var e := InjectedError(Exporting, f);
    QueuesAll(cfg, s, spans);
    RefusesAll(cfg, s, spans, e);
    TimesSnoc(e, |spans|);
  }

  /** A resend that fails by injection: the queue stays after a retryable failure that drops
      nothing, and any other drops the whole queue. */
  lemma FailedResendExactly(cfg: Config, s: Store, f: Failure)
    ensures var (after, answer) := FailResend(cfg, s, f);
            var e := InjectedAs(Exporting, f);
            && answer == [e] && after.dirty && after.lastFlushError == Some(e) && after.recorded == s.recorded
            && if f.retryable && !f.dropped then
                 && after.pending == s.pending && after.dropped == s.dropped
                 && after.history.log == s.history.log + [e]
               else
                 && after.pending == [] && after.dropped == s.dropped + DroppedAs(s.pending, Injected, e)
                 && after.history.log == s.history.log + Times(e, |s.pending| + 1)
  {
    var e := InjectedError(Exporting, f);
    DropsAll(cfg, Losing(e), s, s.pending);
    TimesSnoc(e, |s.pending|);
  }
}

/** When the recorder is shut down, and what it then answers to an export. */
module RecorderClosed {
  import opened Model
  import opened Redaction
  import opened Recorder
  import opened RecorderRuns
  import opened RecorderAnswers
  import opened RecorderLoops
  import opened RecorderShutdown

  // ----- A store is shut down exactly when a shutdown of its epoch has begun.

  /** The step begins a shutdown. */
  predicate Begins(sys: System, step: Step) { step.Start? && step.id !in sys.running && step.call.ShutdownCall? }

  /** Step k of the run begins a shutdown, and no Reset follows it among the first n. */
  ghost predicate BeginsAt(cfg: Config, steps: seq<Step>, k: nat, n: nat)
    requires k < n <= |steps|
  {
    Begins(Run(cfg, INITIAL, steps[..k]), steps[k]) && forall j :: k <= j < n ==> !steps[j].Reset?
  }

  /** In the first n steps a shutdown of the present epoch has begun. */
  ghost predicate HasBegun(cfg: Config, steps: seq<Step>, n: nat)
    requires n <= |steps|
  {
    exists k: nat :: k < n && BeginsAt(cfg, steps, k, n)
  }

  /** What a commit leaves alone. */
  predicate SameClosing(s: Store, after: Store) {
    after.shutdown == s.shutdown && after.counters.shutdown == s.counters.shutdown
  }

  lemma {:induction false} LoopLeavesClosing(cfg: Config, each: Each, s: Store, spans: seq<Span>)
    ensures SameClosing(s, HandleAll(cfg, each, s, spans))
  {
    if spans != [] { LoopLeavesClosing(cfg, each, s, spans[..|spans| - 1]); }
  }

  lemma ExportLeavesClosing(cfg: Config, s: Store, spans: seq<Span>)
    ensures SameClosing(s, CommitExport(cfg, s, spans).0)
  {
    LoopLeavesClosing(cfg, Closing, s, spans);
    LoopLeavesClosing(cfg, Accepting, s, spans);
  }

  lemma InjectedLeavesClosing(cfg: Config, s: Store, f: Failure, spans: seq<Span>)
    ensures SameClosing(s, CommitInjectedExport(cfg, s, f, spans).0)
  {
    var e := InjectedError(Exporting, f);
    LoopLeavesClosing(cfg, if e.retryable && !e.dropped then Queueing else Refusing(e), s, spans);
  }

  lemma FlushLeavesClosing(cfg: Config, s: Store)
    ensures SameClosing(s, CommitFlush(cfg, s).0)
  {
    var counted := CountCall(s, Exporting);
    LoopLeavesClosing(cfg, Delivering, counted, s.pending);
    match Matching(cfg.onExport, Count(counted, Exporting))
    case Some(f) => LoopLeavesClosing(cfg, Losing(InjectedError(Exporting, f)), counted, s.pending);
    case None =>
  }

  lemma CommitLeavesClosing(cfg: Config, epoch: nat, s: Store, l: Local)
    requires l.call.ShutdownCall? && l.epoch == epoch ==> s.shutdown
    ensures SameClosing(s, Commit(cfg, epoch, s, l).0)
  {
    match l.call
    case RecordCall(_, _) =>
    case ExportCall(_, batch) =>
      ExportLeavesClosing(cfg, s, RedactAll(cfg, batch));
      match Matching(cfg.onExport, l.index) {
        case Some(f) => InjectedLeavesClosing(cfg, s, f, RedactAll(cfg, batch));
        case None =>
      }
    case FlushCall(_) => FlushLeavesClosing(cfg, s);
    case ShutdownCall(_) =>
  }

  /** A shutdown under way in its own epoch has shut the store down, and the counter agrees. */
  ghost predicate Tracked(sys: System) {
    && (sys.store.shutdown <==> sys.store.counters.shutdown > 0)
    && Behind(sys)
    && forall id :: id in sys.running && sys.running[id].call.ShutdownCall? && sys.running[id].epoch == sys.epoch ==>
         sys.store.shutdown
  }

  lemma TrackedStep(cfg: Config, sys: System, step: Step)
    requires Tracked(sys)
    ensures Tracked(Next(cfg, sys, step))
    ensures Next(cfg, sys, step).store.shutdown <==> !step.Reset? && (sys.store.shutdown || Begins(sys, step))
  {
    if step.Finish? && step.id in sys.running {
      CommitLeavesClosing(cfg, sys.epoch, sys.store, sys.running[step.id]);
    }
  }

  lemma {:induction false} TrackedRun(cfg: Config, steps: seq<Step>, n: nat)
    requires n <= |steps|
    ensures Tracked(Run(cfg, INITIAL, steps[..n]))
  {
    if n == 0 {
      assert steps[..0] == [];
    } else {
      TrackedRun(cfg, steps, n - 1);
      RunSnoc(cfg, INITIAL, steps, n - 1);
      TrackedStep(cfg, Run(cfg, INITIAL, steps[..n - 1]), steps[n - 1]);
    }
  }

  lemma HasBegunSnoc(cfg: Config, steps: seq<Step>, n: nat)
    requires n < |steps|
    ensures HasBegun(cfg, steps, n + 1) <==>
              !steps[n].Reset? && (HasBegun(cfg, steps, n) || Begins(Run(cfg, INITIAL, steps[..n]), steps[n]))
  {
    if HasBegun(cfg, steps, n + 1) {
      var k: nat :| k < n + 1 && BeginsAt(cfg, steps, k, n + 1);
      if k < n { assert BeginsAt(cfg, steps, k, n); }
    }
    if !steps[n].Reset? && HasBegun(cfg, steps, n) {
      var k: nat :| k < n && BeginsAt(cfg, steps, k, n);
      assert BeginsAt(cfg, steps, k, n + 1);
    }
    if Begins(Run(cfg, INITIAL, steps[..n]), steps[n]) { assert BeginsAt(cfg, steps, n, n + 1); }
  }

  /** Over every interleaving the store is shut down exactly when a shutdown of the present epoch
      has begun, whatever became of it, and exactly when one has been counted. */
  lemma {:induction false} ShutdownIffBegun(cfg: Config, steps: seq<Step>, n: nat)
    requires n <= |steps|
    ensures var s := Run(cfg, INITIAL, steps[..n]).store;
            (s.shutdown <==> HasBegun(cfg, steps, n)) && (s.shutdown <==> s.counters.shutdown > 0)
  {
    TrackedRun(cfg, steps, n);
    if n == 0 {
      assert steps[..0] == [];
    } else {
      ShutdownIffBegun(cfg, steps, n - 1);
      TrackedRun(cfg, steps, n - 1);
      RunSnoc(cfg, INITIAL, steps, n - 1);
      TrackedStep(cfg, Run(cfg, INITIAL, steps[..n - 1]), steps[n - 1]);
      HasBegunSnoc(cfg, steps, n - 1);
    }
  }

  // ----- Exports.

  /** The commit, in its own epoch, of an export that is not canceled and that neither the
      redaction nor a rule fails. */
  ghost predicate PlainExport(cfg: Config, sys: System, step: Step) {
    && step.Finish? && step.id in sys.running
    && var l := sys.running[step.id];
       && l.call.ExportCall? && l.epoch == sys.epoch && !l.call.canceled
       && (l.call.batch == [] || ValidOptions(cfg.redaction)) && Matching(cfg.onExport, l.index).None?
  }

  lemma NotClosed(n: nat)
    ensures Times(CapacityError(Exporting), n) != [CLOSED]
  {
    assert CapacityError(Exporting).classification[0] == 'c' && CLOSED.classification[0] == 'e';
    if n == 1 { assert Times(CapacityError(Exporting), n)[0] == CapacityError(Exporting); }
  }

  lemma ExportClosedIff(cfg: Config, s: Store, spans: seq<Span>)
    ensures CommitExport(cfg, s, spans).1 == [CLOSED] <==> s.shutdown
    ensures s.shutdown ==> AllDropped(s, spans, AfterShutdown, CLOSED, CommitExport(cfg, s, spans).0)
    ensures !s.shutdown ==>
              && CommitExport(cfg, s, spans).1 == Times(CapacityError(Exporting), |spans| - Fit(cfg, s, |spans|))
              && Filled(cfg, Numbered(s, spans), StampedFrom(spans, s.sequence), Direct, CapacityError(Exporting),
                        CommitExport(cfg, s, spans).0)
  {
    if s.shutdown {
      DropsAll(cfg, Closing, s, spans);
    } else {
      AcceptsAll(cfg, s, spans);
      OverflowsExactly(cfg, s, Accepting, spans, CapacityError(Exporting));
      NotClosed(|spans| - Fit(cfg, s, |spans|));
    }
  }

  /** Over every interleaving such an export answers that the exporter is closed exactly when a
      shutdown of its epoch has begun, failed or not; it then records and queues nothing, and
      drops every span as it is. Otherwise it numbers all its spans, records as many as there is
      room for, and drops the rest. */
  lemma ExportIsClosedIff(cfg: Config, steps: seq<Step>, n: nat, at: System, after: Store, spans: seq<Span>)
    requires n < |steps| && at == Run(cfg, INITIAL, steps[..n]) && PlainExport(cfg, at, steps[n])
    requires after == Next(cfg, at, steps[n]).store && spans == RedactAll(cfg, at.running[steps[n].id].call.batch)
    ensures AnswerOf(cfg, at, steps[n]) == [ObsError(Exporting, "exporter_closed", false, true)] <==>
              HasBegun(cfg, steps, n)
    ensures HasBegun(cfg, steps, n) ==> AllDropped(at.store, spans, AfterShutdown, CLOSED, after)
    ensures !HasBegun(cfg, steps, n) ==>
              && AnswerOf(cfg, at, steps[n])
                 == Times(ObsError(Exporting, "capacity", false, true), |spans| - Fit(cfg, at.store, |spans|))
              && Filled(cfg, Numbered(at.store, spans), StampedFrom(spans, at.store.sequence), Direct,
                        CapacityError(Exporting), after)
  {
    ShutdownIffBegun(cfg, steps, n);
    ExportClosedIff(cfg, at.store, spans);
  }

  // ----- Flushes that saw a shutdown error.

  /** A flush that captured a shutdown error when it began answers that error and does nothing, in any
      epoch, unless it is canceled or a rule fails it; then it fails so, in its own epoch only. */
  lemma CapturedExactly(cfg: Config, epoch: nat, s: Store, l: Local)
    requires l.call.FlushCall? && l.captured.Some?
    ensures var (after, answer) := Commit(cfg, epoch, s, l);
            var failure := Matching(cfg.onFlush, l.index);
            if !l.call.canceled && failure.None? then after == s && answer == [l.captured.value]
            else if l.epoch != epoch then after == s && answer == []
            else
              FailsWith(s, l.call, if l.call.canceled then ObsError(Flushing, "canceled", true, false)
                                   else InjectedAs(Flushing, failure.value), after, answer)
  {
    if l.epoch == epoch { FailuresExactly(cfg, s, l); }
  }

  // ----- Repeated shutdowns.

  /** Over every interleaving a shutdown ends in its first section, answering nil, exactly when another
      of its epoch has begun and no shutdown error is retained. */
  lemma ShutdownEndsIff(cfg: Config, steps: seq<Step>, n: nat, at: System)
    requires n < |steps| && at == Run(cfg, INITIAL, steps[..n]) && Begins(at, steps[n])
    ensures steps[n].id !in Next(cfg, at, steps[n]).running <==>
              HasBegun(cfg, steps, n) && at.store.lastShutdownError.None?
  {
    ShutdownIffBegun(cfg, steps, n);
  }

  /** The step commits a shutdown in its own epoch. */
  predicate EndsShutdown(sys: System, step: Step) {
    && step.Finish? && step.id in sys.running
    && sys.running[step.id].call.ShutdownCall? && sys.running[step.id].epoch == sys.epoch
  }

  lemma CommitKeepsShutdownError(cfg: Config, epoch: nat, s: Store, l: Local)
    requires !(l.call.ShutdownCall? && l.epoch == epoch)
    ensures Commit(cfg, epoch, s, l).0.lastShutdownError == s.lastShutdownError
  {
    match l.call
    case RecordCall(_, _) =>
    case ExportCall(_, batch) =>
      ExportKeepsError(cfg, s, Failure(0, "", false, false), RedactAll(cfg, batch));
      match Matching(cfg.onExport, l.index) {
        case Some(f) => ExportKeepsError(cfg, s, f, RedactAll(cfg, batch));
        case None =>
      }
    case FlushCall(_) => FlushDirtyIff(cfg, s);
    case ShutdownCall(_) =>
  }

  /** The retained shutdown error is that of the last shutdown of the epoch that has ended, and there
      is none after one that succeeded. */
  lemma ShutdownErrorIsLast(cfg: Config, sys: System, step: Step)
    ensures var after := Next(cfg, sys, step).store.lastShutdownError;
            if step.Reset? then after == None
            else if !EndsShutdown(sys, step) then after == sys.store.lastShutdownError
            else
              var l := sys.running[step.id];
              after == if l.call.canceled then Some(ObsError(ShuttingDown, "canceled", true, false))
                       else match Matching(cfg.onShutdown, l.index)
                         case Some(f) => Some(InjectedAs(ShuttingDown, f))
                         case None => None
  {
    if step.Finish? && step.id in sys.running && !EndsShutdown(sys, step) {
      CommitKeepsShutdownError(cfg, sys.epoch, sys.store, sys.running[step.id]);
    }
  }

  /** A shutdown answers nil while the first is still under way, and then the first fails. */
  lemma EarlyNil(redaction: Redaction.Options)
    ensures var cfg := Config(redaction, 0, QUIET, QUIET, QUIET);
            var one := Next(cfg, INITIAL, Start(0, ShutdownCall(true)));
            var two := Next(cfg, one, Start(1, ShutdownCall(false)));
            && 0 in two.running && 1 !in two.running
            && Next(cfg, two, Finish(0)).store.lastShutdownError.Some?
  {
  }
}

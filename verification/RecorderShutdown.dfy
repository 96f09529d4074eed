/** What a shutdown, failed or not, means for the operations after it. */
module RecorderShutdown {
  import opened Model
  import opened Redaction
  import opened Recorder
  import opened RecorderRuns

  // ----- One step more of a run.

  lemma RunSnoc(cfg: Config, sys: System, steps: seq<Step>, n: nat)
    requires n < |steps|
    ensures Run(cfg, sys, steps[..n + 1]) == Next(cfg, Run(cfg, sys, steps[..n]), steps[n])
  {
    var mid := Run(cfg, sys, steps[..n]);
    RunAppend(cfg, sys, steps[..n], [steps[n]]);
    assert steps[..n] + [steps[n]] == steps[..n + 1];
    assert Run(cfg, mid, [steps[n]]) == Run(cfg, Next(cfg, mid, steps[n]), []);
  }

  // ----- When a flush answers nil.

  /** There is room for n more spans. */
  predicate Room(cfg: Config, s: Store, n: nat) {
    cfg.capacity <= 0 || n == 0 || |s.recorded| + n <= cfg.capacity
  }

  /** A loop that records finds the store never full exactly when there is room for all. */
  lemma {:induction false} NoOverflowIffRoom(cfg: Config, each: Each, s: Store, spans: seq<Span>, e: ObsError)
    requires each.Accepting? || each.Delivering?
    ensures Overflows(cfg, s, each, spans, e) == [] <==> Room(cfg, s, |spans|)
    ensures Room(cfg, s, |spans|) ==> |HandleAll(cfg, each, s, spans).recorded| == |s.recorded| + |spans|
  {
    if spans != [] { NoOverflowIffRoom(cfg, each, s, spans[..|spans| - 1], e); }
  }

  /** The resend of a flush finds no failure and no full store, or there is nothing to send. */
  predicate FlushDelivers(cfg: Config, s: Store) {
    s.pending == []
    || (Matching(cfg.onExport, Count(s, Exporting) + 1).None? && Room(cfg, s, |s.pending|))
  }

  lemma NilResendIff(cfg: Config, s: Store)
    ensures CommitFlush(cfg, s).1 == [] <==> FlushDelivers(cfg, s)
  {
    var counted := CountCall(s, Exporting);
    NoOverflowIffRoom(cfg, Delivering, counted, s.pending, CapacityError(Flushing));
  }

  /** A flush answers nil exactly when it does not stop at a captured shutdown error and either
      its epoch is over or it is not canceled, does not fail and delivers everything. */
  lemma NilFlushIff(cfg: Config, epoch: nat, s: Store, l: Local)
    requires l.call.FlushCall?
    ensures Commit(cfg, epoch, s, l).1 == [] <==>
              && !StopsAtShutdownError(cfg, l)
              && (l.epoch == epoch ==>
                   !l.call.canceled && Matching(cfg.onFlush, l.index).None? && FlushDelivers(cfg, s))
  {
    NilResendIff(cfg, s);
  }

  // ----- A retained shutdown error means a dirty store: exactly when.

  ghost predicate ErrorMeansDirty(s: Store) { s.lastShutdownError.Some? ==> s.dirty }

  /** A flush of this epoch that began before the error was retained, and that now delivers. */
  predicate Cleans(cfg: Config, epoch: nat, s: Store, l: Local) {
    && s.lastShutdownError.Some? && l.call.FlushCall? && l.captured.None? && l.epoch == epoch
    && !l.call.canceled && Matching(cfg.onFlush, l.index).None? && FlushDelivers(cfg, s)
  }

  lemma {:induction false} LoopStaysDirty(cfg: Config, each: Each, s: Store, spans: seq<Span>)
    ensures s.dirty ==> HandleAll(cfg, each, s, spans).dirty
    ensures HandleAll(cfg, each, s, spans).lastShutdownError == s.lastShutdownError
  {
    if spans != [] { LoopStaysDirty(cfg, each, s, spans[..|spans| - 1]); }
  }

  lemma FlushDirtyIff(cfg: Config, s: Store)
    ensures CommitFlush(cfg, s).0.lastShutdownError == s.lastShutdownError
    ensures CommitFlush(cfg, s).0.dirty <==> CommitFlush(cfg, s).1 != []
  {
    var counted := CountCall(s, Exporting);
    LoopStaysDirty(cfg, Delivering, counted, s.pending);
    match Matching(cfg.onExport, Count(counted, Exporting)) {
      case Some(f) => LoopStaysDirty(cfg, Losing(InjectedError(Exporting, f)), counted, s.pending);
      case None =>
    }
  }

  lemma ExportKeepsError(cfg: Config, s: Store, f: Failure, spans: seq<Span>)
    ensures CommitInjectedExport(cfg, s, f, spans).0.dirty
    ensures CommitInjectedExport(cfg, s, f, spans).0.lastShutdownError == s.lastShutdownError
    ensures s.dirty ==> CommitExport(cfg, s, spans).0.dirty
    ensures CommitExport(cfg, s, spans).0.lastShutdownError == s.lastShutdownError
  {
    var e := InjectedError(Exporting, f);
    LoopStaysDirty(cfg, if e.retryable && !e.dropped then Queueing else Refusing(e), s, spans);
    LoopStaysDirty(cfg, Closing, s, spans);
    LoopStaysDirty(cfg, Accepting, s, spans);
  }

  /** The one commit after which a retained shutdown error no longer means a dirty store is
      that of such a flush. */
  lemma CleansIff(cfg: Config, epoch: nat, s: Store, l: Local)
    requires ErrorMeansDirty(s)
    ensures !ErrorMeansDirty(Commit(cfg, epoch, s, l).0) <==> Cleans(cfg, epoch, s, l)
  {
    match l.call
    case RecordCall(_, _) =>
    case ExportCall(_, batch) =>
      ExportKeepsError(cfg, s, Failure(0, "", false, false), RedactAll(cfg, batch));
      match Matching(cfg.onExport, l.index) {
        case Some(f) => ExportKeepsError(cfg, s, f, RedactAll(cfg, batch));
        case None =>
      }
    case FlushCall(_) =>
      FlushDirtyIff(cfg, s);
      NilResendIff(cfg, s);
    case ShutdownCall(_) =>
  }

  ghost predicate CleansAt(cfg: Config, sys: System, step: Step) {
    step.Finish? && step.id in sys.running && Cleans(cfg, sys.epoch, sys.store, sys.running[step.id])
  }

  lemma StepDirtyIff(cfg: Config, sys: System, step: Step)
    requires ErrorMeansDirty(sys.store)
    ensures ErrorMeansDirty(Next(cfg, sys, step).store) <==> !CleansAt(cfg, sys, step)
  {
    if step.Finish? && step.id in sys.running { CleansIff(cfg, sys.epoch, sys.store, sys.running[step.id]); }
  }

  ghost predicate DirtyAfter(cfg: Config, steps: seq<Step>, n: nat)
    requires n <= |steps|
  {
    ErrorMeansDirty(Run(cfg, INITIAL, steps[..n]).store)
  }

  ghost predicate CleansIn(cfg: Config, steps: seq<Step>, n: nat)
    requires n < |steps|
  {
    CleansAt(cfg, Run(cfg, INITIAL, steps[..n]), steps[n])
  }

  lemma {:induction false} DirtyUntil(cfg: Config, steps: seq<Step>, n: nat)
    requires n <= |steps| && forall k: nat :: k < n ==> !CleansIn(cfg, steps, k)
    ensures DirtyAfter(cfg, steps, n)
  {
    if n == 0 {
      assert steps[..0] == [];
    } else {
      DirtyUntil(cfg, steps, n - 1);
      RunSnoc(cfg, INITIAL, steps, n - 1);
      assert !CleansIn(cfg, steps, n - 1);
      StepDirtyIff(cfg, Run(cfg, INITIAL, steps[..n - 1]), steps[n - 1]);
    }
  }

  /** Over every interleaving: a retained shutdown error means a dirty store in every state
      exactly when no step is the commit of a flush that began before the error and delivers. */
  lemma DirtyThroughoutIff(cfg: Config, steps: seq<Step>)
    ensures (forall n: nat :: n <= |steps| ==> DirtyAfter(cfg, steps, n))
       <==> (forall n: nat :: n < |steps| ==> !CleansIn(cfg, steps, n))
  {
    if forall n: nat :: n <= |steps| ==> DirtyAfter(cfg, steps, n) {
      forall n: nat | n < |steps| ensures !CleansIn(cfg, steps, n) {
        assert DirtyAfter(cfg, steps, n) && DirtyAfter(cfg, steps, n + 1);
        RunSnoc(cfg, INITIAL, steps, n);
        StepDirtyIff(cfg, Run(cfg, INITIAL, steps[..n]), steps[n]);
      }
    }
    if forall n: nat :: n < |steps| ==> !CleansIn(cfg, steps, n) {
      forall n: nat | n <= |steps| ensures DirtyAfter(cfg, steps, n) { DirtyUntil(cfg, steps, n); }
    }
  }

  // ----- A guard that is enough for whole runs.

  /** A flush of this epoch that has seen no shutdown error. */
  predicate Blind(sys: System, l: Local) { l.call.FlushCall? && l.captured.None? && l.epoch == sys.epoch }

  ghost predicate NoneBlind(sys: System) { forall id :: id in sys.running ==> !Blind(sys, sys.running[id]) }

  /** The step publishes the error of a shutdown. */
  predicate FailsShutdown(cfg: Config, sys: System, step: Step) {
    && step.Finish? && step.id in sys.running
    && var l := sys.running[step.id];
       l.call.ShutdownCall? && l.epoch == sys.epoch && (l.call.canceled || Matching(cfg.onShutdown, l.index).Some?)
  }

  ghost predicate Watched(sys: System) { sys.store.lastShutdownError.Some? ==> sys.store.dirty && NoneBlind(sys) }

  lemma NewErrorFromShutdown(cfg: Config, sys: System, step: Step)
    requires sys.store.lastShutdownError.None? && Next(cfg, sys, step).store.lastShutdownError.Some?
    ensures FailsShutdown(cfg, sys, step)
  {
    var s, l := sys.store, sys.running[step.id];
    match l.call {
      case RecordCall(_, _) =>
      case ExportCall(_, batch) =>
        ExportKeepsError(cfg, s, Failure(0, "", false, false), RedactAll(cfg, batch));
        match Matching(cfg.onExport, l.index) {
          case Some(f) => ExportKeepsError(cfg, s, f, RedactAll(cfg, batch));
          case None =>
        }
      case FlushCall(_) => FlushDirtyIff(cfg, s);
      case ShutdownCall(_) =>
    }
  }

  lemma WatchedStep(cfg: Config, sys: System, step: Step)
    requires Watched(sys) && (FailsShutdown(cfg, sys, step) ==> NoneBlind(sys))
    ensures Watched(Next(cfg, sys, step))
  {
    var next := Next(cfg, sys, step);
    if next.store.lastShutdownError.Some? {
      if sys.store.lastShutdownError.None? { NewErrorFromShutdown(cfg, sys, step); }
      StepDirtyIff(cfg, sys, step);
    }
  }

  ghost predicate Guarded(cfg: Config, steps: seq<Step>, n: nat)
    requires n < |steps|
  {
    var at := Run(cfg, INITIAL, steps[..n]);
    FailsShutdown(cfg, at, steps[n]) ==> NoneBlind(at)
  }

  lemma {:induction false} WatchedRun(cfg: Config, steps: seq<Step>, n: nat)
    requires n <= |steps| && forall k: nat :: k < n ==> Guarded(cfg, steps, k)
    ensures Watched(Run(cfg, INITIAL, steps[..n]))
  {
    if n == 0 {
      assert steps[..0] == [];
    } else {
      WatchedRun(cfg, steps, n - 1);
      RunSnoc(cfg, INITIAL, steps, n - 1);
      assert Guarded(cfg, steps, n - 1);
      WatchedStep(cfg, Run(cfg, INITIAL, steps[..n - 1]), steps[n - 1]);
    }
  }

  /** Over every interleaving in which no flush is under way that has seen no error when a
      shutdown of its epoch fails: a retained shutdown error always means a dirty store, and
      while it is retained no flush of its epoch answers nil. */
  lemma GuardedRun(cfg: Config, steps: seq<Step>, n: nat, l: Local)
    requires n <= |steps| && forall k: nat :: k < |steps| ==> Guarded(cfg, steps, k)
    ensures var at := Run(cfg, INITIAL, steps[..n]);
            && ErrorMeansDirty(at.store)
            && (at.store.lastShutdownError.Some? && l in at.running.Values ==>
                  l.call.FlushCall? && l.epoch == at.epoch ==> Commit(cfg, at.epoch, at.store, l).1 != [])
  {
    WatchedRun(cfg, steps, n);
    var at := Run(cfg, INITIAL, steps[..n]);
    if at.store.lastShutdownError.Some? && l in at.running.Values && l.call.FlushCall? && l.epoch == at.epoch {
      var id :| id in at.running && at.running[id] == l;
      assert !Blind(at, at.running[id]);
      NilFlushIff(cfg, at.epoch, at.store, l);
    }
  }

  // ----- Operations that are not interleaved.

  /** An operation whose two sections are not interrupted. */
  ghost function Whole(cfg: Config, s: Store, call: Call): (Store, Answer) {
    var (begun, local) := Begin(0, s, call);
    if EndsAtOnce(s, call) then (begun, []) else Commit(cfg, 0, begun, local)
  }

  lemma WholeIsUninterrupted(cfg: Config, s: Store, call: Call, id: nat)
    ensures Run(cfg, System(0, s, map[]), [Start(id, call), Finish(id)]).store == Whole(cfg, s, call).0
  {
    var sys := System(0, s, map[]);
    var mid := Next(cfg, sys, Start(id, call));
    assert Run(cfg, sys, [Start(id, call), Finish(id)]) == Run(cfg, mid, [Finish(id)]) == Next(cfg, mid, Finish(id));
  }

  ghost function WholeRun(cfg: Config, s: Store, calls: seq<Call>): Store
    decreases |calls|
  {
    if calls == [] then s else WholeRun(cfg, Whole(cfg, s, calls[0]).0, calls[1..])
  }

  /** When operations are not interleaved, a retained shutdown error means dirty, and a flush
      does not return nil while it is retained. */
  lemma {:induction false} ShutdownErrorWhenAtomic(cfg: Config, s: Store, calls: seq<Call>, canceled: bool)
    requires ErrorMeansDirty(s)
    ensures var end := WholeRun(cfg, s, calls);
            && ErrorMeansDirty(end)
            && (end.lastShutdownError.Some? ==> Whole(cfg, end, FlushCall(canceled)).1 != [])
    decreases |calls|
  {
    if calls != [] {
      var (begun, local) := Begin(0, s, calls[0]);
      if !EndsAtOnce(s, calls[0]) { CleansIff(cfg, 0, begun, local); }
      ShutdownErrorWhenAtomic(cfg, Whole(cfg, s, calls[0]).0, calls[1..], canceled);
    }
  }

  // ----- Runs in which the property fails.

  const QUIET := Plan(None, [])

  lemma RunOfThree(cfg: Config, sys: System, a: Step, b: Step, c: Step)
    ensures Run(cfg, sys, [a, b, c]) == Next(cfg, Next(cfg, Next(cfg, sys, a), b), c)
  {
    var one, two := Next(cfg, sys, a), Next(cfg, Next(cfg, sys, a), b);
    assert [a, b, c][1..] == [b, c] && [b, c][1..] == [c];
    assert Run(cfg, sys, [a, b, c]) == Run(cfg, one, [b, c]) == Run(cfg, two, [c]);
    assert Run(cfg, two, [c]) == Run(cfg, Next(cfg, two, c), []);
  }

  /** A flush that began before a failing shutdown cleans the store afterwards and returns nil. */
  lemma InterleavedFlushCleans(redaction: Redaction.Options)
    ensures var cfg := Config(redaction, 0, QUIET, QUIET, QUIET);
            var sys := Run(cfg, INITIAL, [Start(0, FlushCall(false)), Start(1, ShutdownCall(true)), Finish(1)]);
            && sys.store.lastShutdownError.Some? && sys.store.dirty
            && AnswerOf(cfg, sys, Finish(0)) == []
            && Next(cfg, sys, Finish(0)).store.lastShutdownError.Some? && !Next(cfg, sys, Finish(0)).store.dirty
  {
    var cfg := Config(redaction, 0, QUIET, QUIET, QUIET);
    RunOfThree(cfg, INITIAL, Start(0, FlushCall(false)), Start(1, ShutdownCall(true)), Finish(1));
  }

  /** A flush from before a Reset answers nil while the new epoch retains a shutdown error. */
  lemma StaleFlushAnswersNil(redaction: Redaction.Options, before: System)
    requires before == Next(Config(redaction, 0, QUIET, QUIET, QUIET), INITIAL, Start(0, FlushCall(false)))
    ensures var cfg := Config(redaction, 0, QUIET, QUIET, QUIET);
            var sys := Run(cfg, before, [Reset, Start(1, ShutdownCall(true)), Finish(1)]);
            sys.store.lastShutdownError.Some? && 0 in sys.running && AnswerOf(cfg, sys, Finish(0)) == []
  {
    var cfg := Config(redaction, 0, QUIET, QUIET, QUIET);
    RunOfThree(cfg, before, Reset, Start(1, ShutdownCall(true)), Finish(1));
  }

  // ----- What still enters after a shutdown.

  /** An export whose injected failure keeps the batch for a resend. */
  predicate Queues(cfg: Config, l: Local) {
    && l.call.ExportCall? && !l.call.canceled && l.call.batch != [] && ValidOptions(cfg.redaction)
    && Matching(cfg.onExport, l.index).Some?
    && Matching(cfg.onExport, l.index).value.retryable && !Matching(cfg.onExport, l.index).value.dropped
  }

  predicate Records(cfg: Config, s: Store, l: Local) {
    l.call.RecordCall? && !l.call.canceled && ValidOptions(cfg.redaction) && !Full(cfg, s)
  }

  /** A flush that moves at least one span from the queue to the recorded ones. */
  predicate Delivers(cfg: Config, s: Store, l: Local) {
    && l.call.FlushCall? && !l.call.canceled && l.captured.None? && Matching(cfg.onFlush, l.index).None?
    && s.pending != [] && Matching(cfg.onExport, Count(s, Exporting) + 1).None? && !Full(cfg, s)
  }

  function Held(s: Store): nat { |s.recorded| + |s.pending| }

  /** What a loop does to the numbers of recorded and of pending spans. */
  lemma {:induction false} LoopSizes(cfg: Config, each: Each, s: Store, spans: seq<Span>)
    ensures var after := HandleAll(cfg, each, s, spans);
            && after.shutdown == s.shutdown
            && (each.Queueing? ==> |after.pending| == |s.pending| + |spans|)
            && (!each.Queueing? ==> after.pending == s.pending)
            && (!each.Accepting? && !each.Delivering? ==> after.recorded == s.recorded)
            && |s.recorded| <= |after.recorded| <= |s.recorded| + |spans|
  {
    if spans != [] { LoopSizes(cfg, each, s, spans[..|spans| - 1]); }
  }

  /** A delivery records the first span exactly when the store is not full. */
  lemma {:induction false} DeliveryGrows(cfg: Config, s: Store, spans: seq<Span>)
    ensures HandleAll(cfg, Delivering, s, spans).recorded != s.recorded <==> spans != [] && !Full(cfg, s)
    ensures Full(cfg, s) ==> Full(cfg, HandleAll(cfg, Delivering, s, spans))
    ensures spans != [] && !Full(cfg, s) ==> |HandleAll(cfg, Delivering, s, spans).recorded| > |s.recorded|
  {
    if spans != [] {
      var n := |spans| - 1;
      DeliveryGrows(cfg, s, spans[..n]);
      if n == 0 { assert spans[..n] == []; }
    }
  }

  /** What a commit after a shutdown did to the store: exactly the three kinds of call move or
      add spans, and only two of them add. */
  ghost predicate EntersExactly(cfg: Config, s: Store, l: Local, after: Store) {
    && after.shutdown
    && (|after.pending| > |s.pending| <==> Queues(cfg, l))
    && (after.recorded != s.recorded <==> Records(cfg, s, l) || Delivers(cfg, s, l))
    && (Held(after) > Held(s) <==> Queues(cfg, l) || Records(cfg, s, l))
  }

  lemma ExportEnters(cfg: Config, s: Store, l: Local, after: Store)
    requires s.shutdown && l.call.ExportCall? && after == CommitNow(cfg, s, l).0
    ensures EntersExactly(cfg, s, l, after)
  {
    var spans := RedactAll(cfg, l.call.batch);
    if !l.call.canceled && (l.call.batch == [] || ValidOptions(cfg.redaction)) {
      match Matching(cfg.onExport, l.index) {
        case Some(f) =>
          var e := InjectedError(Exporting, f);
          LoopSizes(cfg, if e.retryable && !e.dropped then Queueing else Refusing(e), s, spans);
        case None => LoopSizes(cfg, Closing, s, spans);
      }
    }
  }

  lemma FailResendSizes(cfg: Config, s: Store, f: Failure)
    ensures var after := FailResend(cfg, s, f).0;
            after.shutdown == s.shutdown && |after.pending| <= |s.pending| && after.recorded == s.recorded
  {
    LoopSizes(cfg, Losing(InjectedError(Exporting, f)), s, s.pending);
  }

  lemma FlushEnters(cfg: Config, s: Store, l: Local, after: Store)
    requires s.shutdown && l.call.FlushCall? && after == Commit(cfg, l.epoch, s, l).0
    ensures EntersExactly(cfg, s, l, after)
  {
    var counted := CountCall(s, Exporting);
    LoopSizes(cfg, Delivering, counted, s.pending);
    DeliveryGrows(cfg, counted, s.pending);
    match Matching(cfg.onExport, Count(counted, Exporting)) {
      case Some(f) => FailResendSizes(cfg, counted, f);
      case None =>
    }
  }

  lemma CommitEnters(cfg: Config, s: Store, l: Local, after: Store)
    requires s.shutdown && after == Commit(cfg, l.epoch, s, l).0
    ensures EntersExactly(cfg, s, l, after)
  {
    match l.call
    case RecordCall(_, _) =>
    case ExportCall(_, _) => ExportEnters(cfg, s, l, after);
    case FlushCall(_) => FlushEnters(cfg, s, l, after);
    case ShutdownCall(_) =>
  }

  /** The step is the commit, in its own epoch, of an operation. */
  predicate Commits(sys: System, step: Step) {
    step.Finish? && step.id in sys.running && sys.running[step.id].epoch == sys.epoch
  }

  predicate QueuesAt(cfg: Config, sys: System, step: Step) {
    Commits(sys, step) && Queues(cfg, sys.running[step.id])
  }

  predicate RecordsAt(cfg: Config, sys: System, step: Step) {
    Commits(sys, step) && Records(cfg, sys.store, sys.running[step.id])
  }

  predicate DeliversAt(cfg: Config, sys: System, step: Step) {
    Commits(sys, step) && Delivers(cfg, sys.store, sys.running[step.id])
  }

  ghost predicate StepEntersExactly(cfg: Config, sys: System, step: Step) {
    var s, after := sys.store, Next(cfg, sys, step).store;
    && after.shutdown
    && (|after.pending| > |s.pending| <==> QueuesAt(cfg, sys, step))
    && (after.recorded != s.recorded <==> RecordsAt(cfg, sys, step) || DeliversAt(cfg, sys, step))
    && (Held(after) > Held(s) <==> QueuesAt(cfg, sys, step) || RecordsAt(cfg, sys, step))
  }

  lemma StepEnters(cfg: Config, sys: System, step: Step)
    requires sys.store.shutdown && !step.Reset?
    ensures StepEntersExactly(cfg, sys, step)
  {
    if Commits(sys, step) {
      CommitEnters(cfg, sys.store, sys.running[step.id], Next(cfg, sys, step).store);
    } else if step.Finish? && step.id in sys.running {
      StaleCommitIsVoid(cfg, sys.epoch, sys.store, sys.running[step.id]);
    }
  }

  lemma {:induction false} ShutdownStays(cfg: Config, sys: System, steps: seq<Step>, n: nat)
    requires sys.store.shutdown && n <= |steps| && forall i :: 0 <= i < |steps| ==> !steps[i].Reset?
    ensures Run(cfg, sys, steps[..n]).store.shutdown
  {
    if n == 0 {
      assert steps[..0] == [];
    } else {
      ShutdownStays(cfg, sys, steps, n - 1);
      RunSnoc(cfg, sys, steps, n - 1);
      StepEnters(cfg, Run(cfg, sys, steps[..n - 1]), steps[n - 1]);
    }
  }

  /** Over every interleaving from a shutdown to the next Reset: the store stays shut down, and
      at each step a span enters exactly when the step commits an export whose injected
      failure is retryable or a record that finds room; recorded spans change exactly by the
      latter and by a flush that delivers. */
  lemma EntersAfterShutdown(cfg: Config, sys: System, steps: seq<Step>, n: nat)
    requires sys.store.shutdown && n < |steps| && forall i :: 0 <= i < |steps| ==> !steps[i].Reset?
    ensures var at := Run(cfg, sys, steps[..n]);
            at.store.shutdown && StepEntersExactly(cfg, at, steps[n])
            && Run(cfg, sys, steps[..n + 1]) == Next(cfg, at, steps[n])
  {
    ShutdownStays(cfg, sys, steps, n);
    RunSnoc(cfg, sys, steps, n);
    StepEnters(cfg, Run(cfg, sys, steps[..n]), steps[n]);
  }

  const RETRIED := Plan(Some(Failure(0, "", true, false)), [])

  /** An export after a successful shutdown queues its batch when its failure is retryable. */
  lemma ExportEntersAfterShutdown(redaction: Redaction.Options, span: Span, sys: System, l: Local)
    requires ValidOptions(redaction)
    requires var cfg := Config(redaction, 0, RETRIED, QUIET, QUIET);
             sys == Next(cfg, Next(cfg, INITIAL, Start(0, ShutdownCall(false))), Finish(0))
             && l == Begin(sys.epoch, sys.store, ExportCall(false, [span])).1
    ensures sys.store.shutdown && sys.store.lastShutdownError.None? && sys.store.pending == []
    ensures |Commit(Config(redaction, 0, RETRIED, QUIET, QUIET), sys.epoch, sys.store, l).0.pending| == 1
  {
    var cfg := Config(redaction, 0, RETRIED, QUIET, QUIET);
    LoopSizes(cfg, Queueing, sys.store, RedactAll(cfg, [span]));
  }
}
